/** The `vr-menu` and `vr-menu-toggle` components of the A-Frame version:
    the particle-count label adjusted in steps of 10K and clamped, the
    show/hide/toggle visibility switch, and the double-pinch detector. */
module VrMenu {
  import opened Common

  const MinCount := 10000
  const MaxCount := 200000
  /** Longest gap between two pinches of a double pinch, in ms. */
  const DoublePinchWindow := 500.0

  const LabelPrefix := "Particles: "
  /** The label text the menu is built with. */
  const InitialLabel := "Particles: 50K"

  predicate IsDigit(c: char) {
    '0' <= c <= '9'
  }

  function DigitValue(c: char): nat
    requires IsDigit(c)
  {
    (c as int - '0' as int) as nat
  }

  function DigitChar(d: nat): (c: char)
    requires d < 10
    ensures IsDigit(c) && DigitValue(c) == d
  {
    ('0' as int + d) as char
  }

  /** `parseInt` of a run of decimal digits. */
  function Value(ds: seq<char>): nat
    requires forall i :: 0 <= i < |ds| ==> IsDigit(ds[i])
  {
    if ds == [] then 0 else Value(ds[..|ds| - 1]) * 10 + DigitValue(ds[|ds| - 1])
  }

  /** The decimal text of a natural number, as a template literal prints it. */
  function Decimal(n: nat): (ds: seq<char>)
    ensures |ds| > 0 && forall i :: 0 <= i < |ds| ==> IsDigit(ds[i])
  {
    if n < 10 then [DigitChar(n)] else Decimal(n / 10) + [DigitChar(n % 10)]
  }

  /** Reading back the decimal text of `n` gives `n`. */
  lemma {:induction false} DecimalRoundTrip(n: nat)
    ensures Value(Decimal(n)) == n
  {
    if n >= 10 {
      var ds := Decimal(n);
      assert ds[..|ds| - 1] == Decimal(n / 10);
      DecimalRoundTrip(n / 10);
    }
  }

  /** Length of the run of digits starting at `i`. */
  function DigitRun(s: string, i: nat): (k: nat)
    requires i <= |s|
    ensures i + k <= |s|
    ensures forall j :: i <= j < i + k ==> IsDigit(s[j])
    ensures i + k < |s| ==> !IsDigit(s[i + k])
    decreases |s| - i
  {
    if i < |s| && IsDigit(s[i]) then 1 + DigitRun(s, i + 1) else 0
  }

  /** `/(\d+)K/` searched from position `i`: the leftmost start of a
      non-empty digit run immediately followed by 'K', and the value of that
      run. (Greedy `\d+` followed by a non-digit cannot match a shorter
      run.) */
  function MatchFrom(s: string, i: nat): (r: Option<nat>)
    requires i <= |s|
    decreases |s| - i
  {
    if i == |s| then None
    else
      var k := DigitRun(s, i);
      if k > 0 && i + k < |s| && s[i + k] == 'K' then Some(Value(s[i..i + k]))
      else MatchFrom(s, i + 1)
  }

  function MatchCount(s: string): Option<nat> {
    MatchFrom(s, 0)
  }

  /** The rewritten label for a count of `k` thousand. */
  function Label(k: nat): string {
    LabelPrefix + Decimal(k) + "K"
  }

  /** The new count of `adjustParticles`: `parseInt(n) * 1000 + delta`
      clamped to [10000, 200000]. */
  function Adjusted(n: nat, delta: int): (c: int)
    ensures MinCount <= c <= MaxCount
    ensures MinCount <= n * 1000 + delta <= MaxCount ==> c == n * 1000 + delta
    ensures n * 1000 + delta < MinCount ==> c == MinCount
    ensures n * 1000 + delta > MaxCount ==> c == MaxCount
  {
    if n * 1000 + delta < MinCount then MinCount
    else if n * 1000 + delta > MaxCount then MaxCount
    else n * 1000 + delta
  }

  /** The label text after `adjustParticles(delta)`, or `None` when the text
      has no count to adjust. */
  function NextLabel(text: string, delta: int): Option<string>
    requires delta % 1000 == 0
  {
    match MatchCount(text)
    case None => None
    case Some(n) => Some(Label(Adjusted(n, delta) / 1000))
  }

  /** The count parses back from the label written for it. */
  lemma LabelRoundTrip(k: nat)
    ensures MatchCount(Label(k)) == Some(k)
  {
    var s := Label(k);
    var ds := Decimal(k);
    var p := |LabelPrefix|;
    assert s[p..p + |ds|] == ds;
    forall j | p <= j < p + |ds| ensures IsDigit(s[j]) {
      assert s[j] == ds[j - p];
    }
    RunLength(s, p, |ds|);
    assert s[p + |ds|] == 'K';
    NoMatchInPrefix(s, 0, p);
    DecimalRoundTrip(k);
  }

  /** In `s`, the digits from `i` to `i + n` are followed by a non-digit, so
      the run from `i` has length `n`. */
  lemma {:induction false} RunLength(s: string, i: nat, n: nat)
    requires i + n < |s|
    requires forall j :: i <= j < i + n ==> IsDigit(s[j])
    requires !IsDigit(s[i + n])
    ensures DigitRun(s, i) == n
    decreases n
  {
    if n > 0 {
      RunLength(s, i + 1, n - 1);
    }
  }

  /** No digit before position `p` of a label, so the search reaches `p`. */
  lemma {:induction false} NoMatchInPrefix(s: string, i: nat, p: nat)
    requires i <= p <= |s| && |LabelPrefix| == p && s[..p] == LabelPrefix
    ensures MatchFrom(s, i) == MatchFrom(s, p)
    decreases p - i
  {
    if i < p {
      assert s[i] == LabelPrefix[i];
      assert !IsDigit(s[i]);
      NoMatchInPrefix(s, i + 1, p);
    }
  }

  /** Whatever label text matches, the rewritten label shows a count in
      [10K, 200K] that parses back exactly. */
  lemma AdjustedLabelInRange(text: string, delta: int)
    requires delta % 1000 == 0 && MatchCount(text).Some?
    ensures var k := Adjusted(MatchCount(text).value, delta) / 1000;
      NextLabel(text, delta) == Some(Label(k))
      && MatchCount(Label(k)) == Some(k) && 10 <= k <= 200
      && k * 1000 == Adjusted(MatchCount(text).value, delta)
  {
    var c := Adjusted(MatchCount(text).value, delta);
    assert c % 1000 == 0;
    LabelRoundTrip(c / 1000);
  }

  /** The menu is built showing 50K. */
  lemma InitialLabelCount()
    ensures MatchCount(InitialLabel) == Some(50)
  {
    assert InitialLabel == Label(50) by {
      assert Decimal(50) == "50";
    }
    LabelRoundTrip(50);
  }

  class VrMenu {
    var labelText: string
    var isVisible: bool
    /** Whether the scene's camera has been found; it is looked up only
        once the scene has loaded. */
    var hasCamera: bool
    const hasPanel: bool

    constructor (panel: bool)
      ensures labelText == InitialLabel && !isVisible && !hasCamera && hasPanel == panel
    {
      labelText := InitialLabel;
      isVisible := false;
      hasCamera := false;
      hasPanel := panel;
    }

    /** The scene `loaded` listener: look up the camera, which may be
        missing. */
    method SceneLoaded(cameraFound: bool)
      modifies this`hasCamera
      ensures hasCamera == cameraFound
    {
      hasCamera := cameraFound;
    }

    /** `adjustParticles(delta)`: nothing unless the particle entity and its
        component exist and the label holds a count; otherwise the label
        shows the clamped new count. */
    method AdjustParticles(delta: int, entityFound: bool, componentFound: bool)
      requires delta % 1000 == 0
      modifies this`labelText
      ensures !(entityFound && componentFound) || MatchCount(old(labelText)).None? ==> labelText == old(labelText)
      ensures entityFound && componentFound && MatchCount(old(labelText)).Some? ==>
        Some(labelText) == NextLabel(old(labelText), delta)
    {
      if !entityFound {
        return;
      }
      if !componentFound {
        return;
      }
      var m := MatchCount(labelText);
      if m.Some? {
        var count := m.value * 1000 + delta;
        count := if count < MinCount then MinCount else if count > MaxCount then MaxCount else count;
        labelText := LabelPrefix + Decimal(count / 1000) + "K";
      }
    }

    /** `show`: needs the camera and the panel. */
    method Show()
      modifies this`isVisible
      ensures isVisible == if hasCamera && hasPanel then true else old(isVisible)
    {
      if !hasCamera || !hasPanel {
        return;
      }
      isVisible := true;
    }

    /** `hide`: needs the panel. */
    method Hide()
      modifies this`isVisible
      ensures isVisible == if hasPanel then false else old(isVisible)
    {
      if hasPanel {
        isVisible := false;
      }
    }

    /** `toggle`: hide when visible, show otherwise. With a camera and a
        panel it flips the visibility. */
    method Toggle()
      modifies this`isVisible
      ensures old(isVisible) ==> isVisible == !hasPanel
      ensures !old(isVisible) ==> isVisible == (hasCamera && hasPanel)
      ensures hasCamera && hasPanel ==> isVisible == !old(isVisible)
    {
      if isVisible {
        Hide();
      } else {
        Show();
      }
    }
  }

  /** `vr-menu-toggle`: two pinches less than 500 ms apart toggle the menu. */
  class MenuToggle {
    var lastPinchTime: real
    var vrMenu: VrMenu?

    constructor ()
      ensures lastPinchTime == 0.0 && vrMenu == null
    {
      lastPinchTime := 0.0;
      vrMenu := null;
    }

    /** The scene `loaded` listener: remember the menu if there is one. */
    method SceneLoaded(found: VrMenu?)
      modifies this`vrMenu
      ensures vrMenu == if found != null then found else old(vrMenu)
    {
      if found != null {
        vrMenu := found;
      }
    }

    /** The `pinchstarted` listener at time `now`. A double pinch toggles the
        menu (when known) and forgets the pinch time; any other pinch is
        recorded. */
    method Pinch(now: real)
      modifies this`lastPinchTime
      modifies if vrMenu != null then {vrMenu} else {}
      ensures now - old(lastPinchTime) < DoublePinchWindow ==> lastPinchTime == 0.0
      ensures now - old(lastPinchTime) >= DoublePinchWindow ==> lastPinchTime == now
      ensures vrMenu != null && now - old(lastPinchTime) < DoublePinchWindow ==>
        (old(vrMenu.isVisible) ==> vrMenu.isVisible == !vrMenu.hasPanel)
        && (!old(vrMenu.isVisible) ==> vrMenu.isVisible == (vrMenu.hasCamera && vrMenu.hasPanel))
      ensures vrMenu != null ==> vrMenu.labelText == old(vrMenu.labelText) && vrMenu.hasCamera == old(vrMenu.hasCamera)
      ensures vrMenu != null && now - old(lastPinchTime) >= DoublePinchWindow ==>
        vrMenu.isVisible == old(vrMenu.isVisible)
    {
      if now - lastPinchTime < DoublePinchWindow {
        if vrMenu != null {
          vrMenu.Toggle();
        }
        lastPinchTime := 0.0;
      } else {
        lastPinchTime := now;
      }
    }
  }
}

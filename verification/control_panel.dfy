/** The control panel's logic, without its markup: partial updates of the
    pending template, the AI request handler around its await, the clock
    label, the day/night icon, and the domains of the sliders. */
module ControlPanel {
  import opened Types
  import Flower
  import GardenScene

  // ---------------------------------------------------------------------------
  // Partial updates of the template
  // ---------------------------------------------------------------------------

  /** A partial template: each field either absent or a replacement value. */
  datatype Patch = Patch(
    petalColor: Option<Color>,
    petalCount: Option<real>,
    petalSize: Option<real>,
    petalShape: Option<PetalShape>,
    stemHeight: Option<real>,
    stemThickness: Option<real>,
    leafCount: Option<real>,
    leafSize: Option<real>,
    leafShape: Option<LeafShape>,
    centerColor: Option<Color>,
    density: Option<real>)

  const EmptyPatch := Patch(None, None, None, None, None, None, None, None, None, None, None)

  function Pick<T>(o: Option<T>, fallback: T): T
  {
    if o.Some? then o.value else fallback
  }

  /** Spreading a patch over a template: a field present in the patch replaces
      the template's, every other field keeps the template's value. */
  function Merge(t: Template, p: Patch): (r: Template)
    ensures p.petalColor.Some? ==> r.petalColor == p.petalColor.value
    ensures p.petalColor.None? ==> r.petalColor == t.petalColor
    ensures p.petalCount.Some? ==> r.petalCount == p.petalCount.value
    ensures p.petalCount.None? ==> r.petalCount == t.petalCount
    ensures p.petalSize.Some? ==> r.petalSize == p.petalSize.value
    ensures p.petalSize.None? ==> r.petalSize == t.petalSize
    ensures p.petalShape.Some? ==> r.petalShape == p.petalShape.value
    ensures p.petalShape.None? ==> r.petalShape == t.petalShape
    ensures p.stemHeight.Some? ==> r.stemHeight == p.stemHeight.value
    ensures p.stemHeight.None? ==> r.stemHeight == t.stemHeight
    ensures p.stemThickness.Some? ==> r.stemThickness == p.stemThickness.value
    ensures p.stemThickness.None? ==> r.stemThickness == t.stemThickness
    ensures p.leafCount.Some? ==> r.leafCount == p.leafCount.value
    ensures p.leafCount.None? ==> r.leafCount == t.leafCount
    ensures p.leafSize.Some? ==> r.leafSize == p.leafSize.value
    ensures p.leafSize.None? ==> r.leafSize == t.leafSize
    ensures p.leafShape.Some? ==> r.leafShape == p.leafShape.value
    ensures p.leafShape.None? ==> r.leafShape == t.leafShape
    ensures p.centerColor.Some? ==> r.centerColor == p.centerColor.value
    ensures p.centerColor.None? ==> r.centerColor == t.centerColor
    ensures p.density.Some? ==> r.density == p.density.value
    ensures p.density.None? ==> r.density == t.density
  {
    Template(Pick(p.petalColor, t.petalColor), Pick(p.petalCount, t.petalCount),
             Pick(p.petalSize, t.petalSize), Pick(p.petalShape, t.petalShape),
             Pick(p.stemHeight, t.stemHeight), Pick(p.stemThickness, t.stemThickness),
             Pick(p.leafCount, t.leafCount), Pick(p.leafSize, t.leafSize),
             Pick(p.leafShape, t.leafShape), Pick(p.centerColor, t.centerColor),
             Pick(p.density, t.density))
  }

  /** Spreading `q` after `p`: q's fields win, p's fill the rest. */
  function Then(p: Patch, q: Patch): Patch
  {
    Patch(if q.petalColor.Some? then q.petalColor else p.petalColor,
          if q.petalCount.Some? then q.petalCount else p.petalCount,
          if q.petalSize.Some? then q.petalSize else p.petalSize,
          if q.petalShape.Some? then q.petalShape else p.petalShape,
          if q.stemHeight.Some? then q.stemHeight else p.stemHeight,
          if q.stemThickness.Some? then q.stemThickness else p.stemThickness,
          if q.leafCount.Some? then q.leafCount else p.leafCount,
          if q.leafSize.Some? then q.leafSize else p.leafSize,
          if q.leafShape.Some? then q.leafShape else p.leafShape,
          if q.centerColor.Some? then q.centerColor else p.centerColor,
          if q.density.Some? then q.density else p.density)
  }

  /** An empty patch changes nothing. */
  lemma MergeEmpty(t: Template)
    ensures Merge(t, EmptyPatch) == t
  {
  }

  /** Applying the same patch twice is applying it once. */
  lemma MergeIdempotent(t: Template, p: Patch)
    ensures Merge(Merge(t, p), p) == Merge(t, p)
  {
  }

  /** Two successive updates are one update with the combined patch. */
  lemma MergeThen(t: Template, p: Patch, q: Patch)
    ensures Merge(Merge(t, p), q) == Merge(t, Then(p, q))
  {
  }

  // ---------------------------------------------------------------------------
  // Whitespace and trimming
  // ---------------------------------------------------------------------------

  /** The characters string trimming removes: white space and line terminators. */
  predicate IsTrimmable(c: char)
  {
    c == '\t' || c == '\n' || c == '\U{000B}' || c == '\U{000C}' || c == '\r' ||
    c == ' ' || c == '\U{00A0}' || c == '\U{1680}' ||
    ('\U{2000}' <= c <= '\U{200A}') ||
    c == '\U{2028}' || c == '\U{2029}' || c == '\U{202F}' || c == '\U{205F}' ||
    c == '\U{3000}' || c == '\U{FEFF}'
  }

  /** Every character of `s` is trimmable. */
  predicate IsBlank(s: string)
  {
    forall i :: 0 <= i < |s| ==> IsTrimmable(s[i])
  }

  /** `s` without its leading trimmable characters. */
  function TrimStart(s: string): (r: string)
    ensures |r| <= |s| && r == s[|s| - |r|..]
    ensures forall i :: 0 <= i < |s| - |r| ==> IsTrimmable(s[i])
    ensures r != [] ==> !IsTrimmable(r[0])
  {
    if s != [] && IsTrimmable(s[0]) then TrimStart(s[1..]) else s
  }

  /** `s` without its trailing trimmable characters. */
  function TrimEnd(s: string): (r: string)
    ensures |r| <= |s| && r == s[..|r|]
    ensures forall i :: |r| <= i < |s| ==> IsTrimmable(s[i])
    ensures r != [] ==> !IsTrimmable(r[|r| - 1])
  {
    if s != [] && IsTrimmable(s[|s| - 1]) then TrimEnd(s[..|s| - 1]) else s
  }

  function Trim(s: string): string
  {
    TrimEnd(TrimStart(s))
  }

  /** Trimming leaves nothing exactly when the string is blank. */
  lemma TrimEmptyIffBlank(s: string)
    ensures Trim(s) == [] <==> IsBlank(s)
  {
    var a := TrimStart(s);
    if Trim(s) == [] {
      // a non-empty `a` would start with a character TrimEnd keeps
      assert a == [];
    } else {
      var r := Trim(s);
      assert r == a[..|r|] && a == s[|s| - |a|..];
      assert s[|s| - |a|] == r[0];
    }
  }

  // ---------------------------------------------------------------------------
  // Clock label and day icon
  // ---------------------------------------------------------------------------

  predicate IsDigit(c: char)
  {
    '0' <= c <= '9'
  }

  predicate AllDigits(s: string)
  {
    forall i :: 0 <= i < |s| ==> IsDigit(s[i])
  }

  function DigitChar(d: nat): (c: char)
    requires d < 10
    ensures IsDigit(c) && (c as int) - ('0' as int) == d
  {
    (('0' as int) + d) as char
  }

  /** Decimal digits of a natural number, most significant first, without
      leading zeros. */
  function NatToDecimal(n: nat): (s: string)
    ensures 1 <= |s| && AllDigits(s)
    ensures |s| == 1 <==> n < 10
    ensures |s| == 2 <==> 10 <= n < 100
    ensures |s| > 1 ==> s[0] != '0'
  {
    if n < 10 then [DigitChar(n)] else NatToDecimal(n / 10) + [DigitChar(n % 10)]
  }

  /** The number a string of decimal digits denotes. */
  function DecimalValue(s: string): nat
    requires AllDigits(s)
  {
    if s == [] then 0
    else DecimalValue(s[..|s| - 1]) * 10 + ((s[|s| - 1] as int) - ('0' as int))
  }

  /** Reading back the digits of n gives n. */
  lemma {:induction false} DecimalRoundTrip(n: nat)
    ensures DecimalValue(NatToDecimal(n)) == n
  {
    if n >= 10 {
      DecimalRoundTrip(n / 10);
      var s := NatToDecimal(n);
      assert s[..|s| - 1] == NatToDecimal(n / 10);
    }
  }

  /** Leading zeros do not change the number a digit string denotes. */
  lemma {:induction false} LeadingZero(s: string)
    requires AllDigits(s)
    ensures AllDigits("0" + s) && DecimalValue("0" + s) == DecimalValue(s)
    decreases |s|
  {
    if s != [] {
      var z := "0" + s;
      assert z[..|z| - 1] == "0" + s[..|s| - 1];
      LeadingZero(s[..|s| - 1]);
    }
  }

  /** The decimal text of an integer: a minus sign before negative ones. */
  function IntToString(i: int): string
  {
    if i < 0 then "-" + NatToDecimal(-i) else NatToDecimal(i)
  }

  /** `s` padded on the left with `fill` to at least `width` characters. */
  function PadStart(s: string, width: nat, fill: char): (r: string)
    ensures |r| == if |s| >= width then |s| else width
    ensures r[|r| - |s|..] == s
    ensures forall i :: 0 <= i < |r| - |s| ==> r[i] == fill
    decreases width - |s|
  {
    if |s| >= width then s else PadStart([fill] + s, width, fill)
  }

  /** The clock shown beside the time slider: the whole hour, at least two
      characters wide with a leading zero, then ":00". */
  function ClockLabel(t: real): string
  {
    PadStart(IntToString(t.Floor), 2, '0') + ":00"
  }

  /** An hour below 100, padded to two digits, reads back as the hour. */
  lemma PaddedHour(h: nat)
    requires h < 100
    ensures |PadStart(NatToDecimal(h), 2, '0')| == 2
    ensures AllDigits(PadStart(NatToDecimal(h), 2, '0'))
    ensures DecimalValue(PadStart(NatToDecimal(h), 2, '0')) == h
  {
    var digits := NatToDecimal(h);
    DecimalRoundTrip(h);
    if |digits| == 1 {
      assert PadStart(digits, 2, '0') == "0" + digits;
      LeadingZero(digits);
    }
  }

  /** For any time from 0 up to (not including) 100, the label is two digits
      that read back as the whole hour, then ":00". */
  lemma ClockLabelShowsHour(t: real)
    requires 0.0 <= t < 100.0
    ensures |ClockLabel(t)| == 5 && ClockLabel(t)[2..] == ":00"
    ensures AllDigits(ClockLabel(t)[..2])
    ensures DecimalValue(ClockLabel(t)[..2]) == t.Floor
  {
    var h := t.Floor;
    assert 0 <= h < 100;
    assert IntToString(h) == NatToDecimal(h);
    var padded := PadStart(NatToDecimal(h), 2, '0');
    PaddedHour(h);
    assert ClockLabel(t) == padded + ":00";
    assert ClockLabel(t)[..2] == padded;
  }

  /** Sample labels: noon, half past five, and the slider's upper end. */
  lemma ClockLabelNoon()
    ensures ClockLabel(12.0) == "12:00"
  {
    assert 12.0.Floor == 12;
    assert NatToDecimal(1) == "1";
    assert NatToDecimal(12) == "12";
    assert PadStart("12", 2, '0') == "12";
  }

  lemma ClockLabelEarly()
    ensures ClockLabel(5.5) == "05:00"
  {
    assert 5.5.Floor == 5;
    assert PadStart("5", 2, '0') == "05";
  }

  lemma ClockLabelMidnight()
    ensures ClockLabel(24.0) == "24:00"
  {
    assert 24.0.Floor == 24;
    assert NatToDecimal(2) == "2";
    assert NatToDecimal(24) == "24";
    assert PadStart("24", 2, '0') == "24";
  }

  /** The sun icon (rather than the moon) is shown strictly between 6 and 18. */
  predicate ShowsSun(t: real)
  {
    t > 6.0 && t < 18.0
  }

  /** The sun icon marks exactly the band in which the scene is lit by day. */
  lemma SunIconMatchesDaylight(t: real)
    ensures ShowsSun(t) <==> GardenScene.IsDay(t)
    ensures ShowsSun(t) <==> GardenScene.DirectIntensity(t) == 3.0
    ensures ShowsSun(t) ==> GardenScene.AmbientIntensity(t) == GardenScene.DayAmbient
    ensures ShowsSun(t) ==> !GardenScene.StarsVisible(t)
  {
  }

  // ---------------------------------------------------------------------------
  // Slider domains
  // ---------------------------------------------------------------------------

  /** A range input: values from `min` to `max` in whole steps of `step` from `min`. */
  datatype Slider = Slider(min: real, max: real, step: real)

  predicate IsWhole(x: real)
  {
    x.Floor as real == x
  }

  predicate Admits(s: Slider, v: real)
  {
    s.step > 0.0 && s.min <= v <= s.max && IsWhole((v - s.min) / s.step)
  }

  const TimeSlider := Slider(0.0, 24.0, 0.5)
  const PetalCountSlider := Slider(3.0, 64.0, 1.0)
  const StemHeightSlider := Slider(1.0, 15.0, 0.1)
  const LeafCountSlider := Slider(0.0, 10.0, 1.0)

  /** Every time the slider offers lies in the documented 0..24 range, and its
      clock label reads as the whole hour. */
  lemma TimeSliderInRange(t: real)
    requires Admits(TimeSlider, t)
    ensures DocumentedTime(t)
    ensures |ClockLabel(t)| == 5 && AllDigits(ClockLabel(t)[..2])
    ensures DecimalValue(ClockLabel(t)[..2]) == t.Floor
  {
    ClockLabelShowsHour(t);
  }

  /** A template whose counts and height were set with the sliders. */
  predicate SliderTemplate(t: Template)
  {
    Admits(PetalCountSlider, t.petalCount) &&
    Admits(StemHeightSlider, t.stemHeight) &&
    Admits(LeafCountSlider, t.leafCount)
  }

  /** A whole count at least `lo` is its own array length. */
  lemma WholeCount(c: real, lo: real)
    requires lo >= 0.0 && c >= lo && IsWhole(c - lo) && IsWhole(lo)
    ensures Flower.ArrayLength(c) as real == c
  {
    assert c == (c - lo) + lo;
    assert ((c - lo).Floor + lo.Floor) as real == c;
    assert c.Floor == (c - lo).Floor + lo.Floor;
  }

  /** With slider values, the flower has exactly petalCount petals, 3 to 64
      of them, and exactly leafCount leaves, at most 10, each strictly inside
      the stem. */
  lemma SliderTemplateLayout(t: Template)
    requires SliderTemplate(t)
    ensures |Flower.Petals(t)| as real == t.petalCount
    ensures 3 <= |Flower.Petals(t)| <= 64
    ensures |Flower.Leaves(t)| as real == t.leafCount
    ensures |Flower.Leaves(t)| <= 10
    ensures forall i :: 0 <= i < |Flower.Leaves(t)| ==> 0.0 < Flower.Leaves(t)[i].height < t.stemHeight
  {
    WholeCount(t.petalCount, 3.0);
    WholeCount(t.leafCount, 0.0);
    forall i | 0 <= i < |Flower.Leaves(t)|
      ensures 0.0 < Flower.Leaves(t)[i].height < t.stemHeight
    {
      Flower.LeafInsideStem(t, i);
    }
  }

  // ---------------------------------------------------------------------------
  // The panel
  // ---------------------------------------------------------------------------

  /** What the awaited AI call produces: a (possibly empty) patch, or a
      rejected promise. */
  datatype AiReply = Answered(patch: Patch) | Failed

  /** An AI request in flight: the prompt sent and the template the handler
      captured when it started, which the answer is spread over. */
  datatype AiRequest = AiRequest(prompt: string, base: Template)

  class Panel {
    var template: Template   // the current template, read and replaced through the panel's props
    var isRandomMode: bool
    var isAiLoading: bool
    var aiPrompt: string

    constructor (template: Template, isRandomMode: bool)
      ensures this.template == template && this.isRandomMode == isRandomMode
      ensures !isAiLoading && aiPrompt == ""
    {
      this.template := template;
      this.isRandomMode := isRandomMode;
      isAiLoading := false;
      aiPrompt := "";
    }

    /** The prompt input's change handler. */
    method SetPrompt(s: string)
      modifies this
      ensures aiPrompt == s
      ensures template == old(template) && isRandomMode == old(isRandomMode) && isAiLoading == old(isAiLoading)
    {
      aiPrompt := s;
    }

    /** A form control's change: the template with exactly the patched fields replaced. */
    method UpdateConfig(updates: Patch)
      modifies this
      ensures template == Merge(old(template), updates)
      ensures isRandomMode == old(isRandomMode) && isAiLoading == old(isAiLoading) && aiPrompt == old(aiPrompt)
    {
      template := Merge(template, updates);
    }

    /** The AI handler up to its await: a blank prompt returns at once and
        touches nothing; otherwise the loading flag is raised and the request
        goes out with the template as it is now. */
    method StartAIDream() returns (req: Option<AiRequest>)
      modifies this
      ensures IsBlank(old(aiPrompt)) ==> req.None? && isAiLoading == old(isAiLoading)
      ensures !IsBlank(old(aiPrompt)) ==> req == Some(AiRequest(old(aiPrompt), old(template))) && isAiLoading
      ensures template == old(template) && isRandomMode == old(isRandomMode) && aiPrompt == old(aiPrompt)
    {
      TrimEmptyIffBlank(aiPrompt);
      if Trim(aiPrompt) == [] {
        return None;
      }
      isAiLoading := true;
      req := Some(AiRequest(aiPrompt, template));
    }

    /** The AI handler after its await. An answer is spread over the template
        captured at the start (not the one current now), the loading flag is
        lowered and random mode is switched off. A rejected call ends the
        handler at the await: nothing changes, and the flag stays raised. */
    method CompleteAIDream(req: AiRequest, reply: AiReply)
      modifies this
      ensures reply.Answered? ==>
                template == Merge(req.base, reply.patch) && !isAiLoading && !isRandomMode
      ensures reply.Failed? ==>
                template == old(template) && isAiLoading == old(isAiLoading) && isRandomMode == old(isRandomMode)
      ensures aiPrompt == old(aiPrompt)
    {
      if reply.Answered? {
        template := Merge(req.base, reply.patch);
        isAiLoading := false;
        isRandomMode := false;
      }
    }

    /** The whole AI handler when nothing else happens during the await. */
    method HandleAIDream(reply: AiReply)
      modifies this
      ensures IsBlank(old(aiPrompt)) ==>
                template == old(template) && isAiLoading == old(isAiLoading) && isRandomMode == old(isRandomMode)
      ensures !IsBlank(old(aiPrompt)) && reply.Answered? ==>
                template == Merge(old(template), reply.patch) && !isAiLoading && !isRandomMode
      ensures !IsBlank(old(aiPrompt)) && reply.Failed? ==>
                template == old(template) && isAiLoading && isRandomMode == old(isRandomMode)
      ensures aiPrompt == old(aiPrompt)
    {
      var req := StartAIDream();
      if req.Some? {
        CompleteAIDream(req.value, reply);
      }
    }
  }
}

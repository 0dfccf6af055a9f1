/** What the two forecast components render, abstracted from JSX: the icon
    chosen for a condition, the one view picked for the fetch state, and the
    navigation controls of the carousel. Also the keyword priority table both
    icon classifiers follow, and the slider state both components keep. */
module Display {
  import opened Wrappers
  import opened Text
  import opened Context

  /** The lucide-react icon components the classifiers return. */
  datatype IconKind = Sun | CloudRain | CloudSnow | CloudFog | Cloud

  /** An icon with its size (`h-16 w-16` is 16) and colour class. */
  datatype Icon = Icon(kind: IconKind, size: nat, colour: string)

  /** A row of a keyword priority table: a condition mentioning any of the
      keywords gets `kind`. */
  datatype Rule = Rule(keywords: seq<string>, kind: IconKind)

  predicate MentionsAny(l: string, keywords: seq<string>)
  {
    exists i :: 0 <= i < |keywords| && Contains(l, keywords[i])
  }

  /** The kind of the first rule whose keywords `l` mentions, or `Cloud`. */
  function FirstMatch(rules: seq<Rule>, l: string): (k: IconKind)
    ensures k != Cloud ==>
      exists i :: 0 <= i < |rules| && rules[i].kind == k && MentionsAny(l, rules[i].keywords) &&
        (forall j :: 0 <= j < i ==> !MentionsAny(l, rules[j].keywords))
    ensures (forall i :: 0 <= i < |rules| ==> !MentionsAny(l, rules[i].keywords)) ==> k == Cloud
    ensures forall i :: (0 <= i < |rules| && MentionsAny(l, rules[i].keywords) &&
      (forall j :: 0 <= j < i ==> !MentionsAny(l, rules[j].keywords))) ==> k == rules[i].kind
  {
    if rules == [] then Cloud
    else if MentionsAny(l, rules[0].keywords) then rules[0].kind
    else FirstMatch(rules[1..], l)
  }

  /** The documented priority: sun/clear, then rain/drizzle, then snow, then
      fog/mist; anything else (cloud and overcast included) is a cloud. */
  const Priority: seq<Rule> :=
    [Rule(["sun", "clear"], Sun), Rule(["rain", "drizzle"], CloudRain),
     Rule(["snow"], CloudSnow), Rule(["fog", "mist"], CloudFog)]

  lemma MentionsOne(l: string, a: string)
    ensures MentionsAny(l, [a]) <==> Contains(l, a)
  {
    if Contains(l, a) { assert [a][0] == a; }
  }

  lemma MentionsTwo(l: string, a: string, b: string)
    ensures MentionsAny(l, [a, b]) <==> Contains(l, a) || Contains(l, b)
  {
    if Contains(l, a) { assert [a, b][0] == a; }
    if Contains(l, b) { assert [a, b][1] == b; }
  }

  /** `FirstMatch` on `Priority`, written as the chain of tests it amounts to. */
  lemma PriorityChain(l: string)
    ensures FirstMatch(Priority, l) ==
      if Contains(l, "sun") || Contains(l, "clear") then Sun
      else if Contains(l, "rain") || Contains(l, "drizzle") then CloudRain
      else if Contains(l, "snow") then CloudSnow
      else if Contains(l, "fog") || Contains(l, "mist") then CloudFog
      else Cloud
  {
    MentionsTwo(l, "sun", "clear");
    MentionsTwo(l, "rain", "drizzle");
    MentionsOne(l, "snow");
    MentionsTwo(l, "fog", "mist");
    var r1 := [Rule(["rain", "drizzle"], CloudRain), Rule(["snow"], CloudSnow), Rule(["fog", "mist"], CloudFog)];
    var r2 := [Rule(["snow"], CloudSnow), Rule(["fog", "mist"], CloudFog)];
    var r3 := [Rule(["fog", "mist"], CloudFog)];
    assert Priority[1..] == r1 && r1[1..] == r2 && r2[1..] == r3 && r3[1..] == [];
    assert FirstMatch(r3, l) == if Contains(l, "fog") || Contains(l, "mist") then CloudFog else Cloud;
    assert FirstMatch(r2, l) == if Contains(l, "snow") then CloudSnow else FirstMatch(r3, l);
    assert FirstMatch(r1, l) == if Contains(l, "rain") || Contains(l, "drizzle") then CloudRain else FirstMatch(r2, l);
  }

  /** The dot row: one dot per day, highlighted where its index is the
      current slide. */
  function Dots(n: nat, current: int): (dots: seq<bool>)
    ensures |dots| == n
    ensures forall i :: 0 <= i < n ==> (dots[i] <==> i == current)
  {
    if n == 0 then [] else Dots(n - 1, current) + [n - 1 == current]
  }

  function Highlighted(dots: seq<bool>): nat
  {
    if dots == [] then 0 else Highlighted(dots[..|dots| - 1]) + (if dots[|dots| - 1] then 1 else 0)
  }

  /** Exactly one dot is highlighted when the current slide is a valid index,
      none otherwise. */
  lemma {:induction false} OneDotHighlighted(n: nat, current: int)
    ensures Highlighted(Dots(n, current)) == if 0 <= current < n then 1 else 0
  {
    if n > 0 {
      var d := Dots(n, current);
      assert d[..n - 1] == Dots(n - 1, current);
      OneDotHighlighted(n - 1, current);
    }
  }

  datatype Nav = Hidden | Shown(dots: seq<bool>)

  /** Prev/next buttons and dots appear only once the slider is created and
      its instance is set, and only for more than one day. */
  function NavFor(loaded: bool, ready: bool, days: nat, current: int): (nav: Nav)
    ensures nav.Shown? <==> loaded && ready && days > 1
    ensures nav.Shown? ==> |nav.dots| == days
    ensures nav.Shown? ==> forall i :: 0 <= i < days ==> (nav.dots[i] <==> i == current)
  {
    if loaded && ready && days > 1 then Shown(Dots(days, current)) else Hidden
  }

  /** The one thing a forecast component renders. */
  datatype View =
    | Spinner
    | ErrorPanel(message: string)
    | Nothing
    | NoData
    | Carousel(address: string, days: seq<DayWeather>, nav: Nav)

  /** `!data || !data.days || data.days.length === 0` fails. */
  predicate HasDays(data: Option<WeatherData>)
  {
    data.Some? && data.value.days.Some? && |data.value.days.value| > 0
  }

  /** The carousel for data that has days. */
  function CarouselOf(data: Option<WeatherData>, loaded: bool, ready: bool, current: int): (v: View)
    requires HasDays(data)
    ensures v.Carousel? && v.address == data.value.address && v.days == data.value.days.value
    ensures v.nav == NavFor(loaded, ready, |data.value.days.value|, current)
  {
    var days := data.value.days.value;
    Carousel(data.value.address, days, NavFor(loaded, ready, |days|, current))
  }

  /** The `currentSlide` and `loaded` state of a component's slider. */
  class Slider {
    var currentSlide: int
    var loaded: bool

    constructor ()
      ensures currentSlide == 0 && !loaded
    {
      currentSlide := 0;
      loaded := false;
    }

    /** keen-slider's `slideChanged` callback reports the relative index. */
    method SlideChanged(rel: nat)
      modifies this`currentSlide
      ensures currentSlide == rel
    {
      currentSlide := rel;
    }

    /** keen-slider's `created` callback. */
    method Created()
      modifies this`loaded
      ensures loaded
    {
      loaded := true;
    }
  }
}

/** The forecast component `App` renders (exported as `Temp` from
    SliderContainer.tsx): its icon classifier, the chain that picks one view,
    and the effect that rewinds the slider when new data arrives. */
module SliderContainer {
  import opened Wrappers
  import opened Text
  import opened Context
  import opened Display

  /** `getWeatherIcon`: lower-case the condition, then test keywords in order. */
  function WeatherIcon(condition: string): Icon
  {
    var l := Lower(condition);
    if Contains(l, "sun") || Contains(l, "clear") then Icon(Sun, 16, "text-yellow-500")
    else if Contains(l, "rain") || Contains(l, "drizzle") then Icon(CloudRain, 16, "text-blue-600")
    else if Contains(l, "snow") then Icon(CloudSnow, 16, "text-blue-400")
    else if Contains(l, "fog") || Contains(l, "mist") then Icon(CloudFog, 16, "text-gray-500")
    else if Contains(l, "cloud") || Contains(l, "overcast") then Icon(Cloud, 16, "text-gray-600")
    else if Contains(l, "partially cloudy") || Contains(l, "partly cloudy") then Icon(Cloud, 16, "text-blue-500")
    else Icon(Cloud, 16, "text-gray-600")
  }

  /** The icon kind is the first matching row of the priority table, read
      from the lower-cased condition; no keyword at all gives a cloud. */
  lemma IconFollowsPriority(condition: string)
    ensures WeatherIcon(condition).kind == FirstMatch(Priority, Lower(condition))
  {
    PriorityChain(Lower(condition));
  }

  /** Matching ignores the case of ASCII letters. */
  lemma IconIgnoresCase(s: string, t: string)
    requires SameIgnoringCase(s, t)
    ensures WeatherIcon(s) == WeatherIcon(t)
  {
    SameIgnoringCaseLower(s, t);
  }

  /** Only the lower-cased text is inspected: lower-casing first changes nothing. */
  lemma IconOfLowered(condition: string)
    ensures WeatherIcon(Lower(condition)) == WeatherIcon(condition)
  {
    LowerIdempotent(condition);
  }

  /** A condition that mentions sun or clear is sunny whatever surrounds it. */
  lemma SunOverrides(before: string, s: string, after: string)
    requires Contains(Lower(s), "sun") || Contains(Lower(s), "clear")
    ensures WeatherIcon(before + s + after).kind == Sun
  {
    LowerConcat(before + s, after);
    LowerConcat(before, s);
    if Contains(Lower(s), "sun") {
      ContainsInContext(Lower(before), Lower(s), Lower(after), "sun");
    } else {
      ContainsInContext(Lower(before), Lower(s), Lower(after), "clear");
    }
  }

  /** The partly-cloudy branch can never be taken: both of its phrases
      contain "cloud", which the branch before it already catches. */
  lemma PartlyCloudyBranchDead(condition: string)
    ensures WeatherIcon(condition) != Icon(Cloud, 16, "text-blue-500")
  {
    var l := Lower(condition);
    assert OccursAt("partially cloudy", "cloud", 10);
    assert OccursAt("partly cloudy", "cloud", 7);
    if Contains(l, "partially cloudy") {
      ContainsTransitive(l, "partially cloudy", "cloud");
    }
    if Contains(l, "partly cloudy") {
      ContainsTransitive(l, "partly cloudy", "cloud");
    }
  }

  /** The `if` chain of the component: loading, then error, then no city,
      then no days, then the carousel. */
  function Render(st: FetchState, city: Option<string>, loaded: bool, ready: bool, currentSlide: int): (v: View)
    ensures v == Spinner <==> st.loading
    ensures v.ErrorPanel? <==> !st.loading && Truthy(st.error)
    ensures v.ErrorPanel? ==> v.message == st.error.value
    ensures v == Nothing <==> !st.loading && !Truthy(st.error) && !Truthy(city)
    ensures v == NoData <==> !st.loading && !Truthy(st.error) && Truthy(city) && !HasDays(st.data)
    ensures v.Carousel? <==> !st.loading && !Truthy(st.error) && Truthy(city) && HasDays(st.data)
    ensures v.Carousel? ==> HasDays(st.data) && v == CarouselOf(st.data, loaded, ready, currentSlide)
  {
    if st.loading then Spinner
    else if st.error.Some? && st.error.value != "" then ErrorPanel(st.error.value)
    else if city.None? || city.value == "" then Nothing
    else if !HasDays(st.data) then NoData
    else CarouselOf(st.data, loaded, ready, currentSlide)
  }

  /** What the component shows along the store's lifecycle: nothing before a
      city is set, the spinner while fetching, the fixed message after a
      failure, and after a success the carousel or the no-data notice. */
  lemma RenderThroughLifecycle(st: FetchState, city: Option<string>, body: WeatherData,
                               loaded: bool, ready: bool, currentSlide: int)
    ensures Render(Initial, None, loaded, ready, currentSlide) == Nothing
    ensures Render(Start(st), city, loaded, ready, currentSlide) == Spinner
    ensures Render(Resolve(st, Failed), city, loaded, ready, currentSlide) == ErrorPanel(FailMessage)
    ensures var v := Render(Resolve(Start(st), Ok(body)), city, loaded, ready, currentSlide);
      (!Truthy(city) ==> v == Nothing)
      && (Truthy(city) && !HasDays(Some(body)) ==> v == NoData)
      && (Truthy(city) && HasDays(Some(body)) ==> v.Carousel? && v.days == body.days.value)
  {
  }

  /** The effect keyed on `data`: new data rewinds the slider to the first day. */
  method DataEffect(slider: Slider, data: Option<WeatherData>)
    modifies slider`currentSlide
    ensures data.Some? ==> slider.currentSlide == 0
    ensures data.None? ==> slider.currentSlide == old(slider.currentSlide)
  {
    if data.Some? {
      slider.currentSlide := 0;
    }
  }

  /** After the rewind, a carousel with navigation highlights exactly one
      dot, the first. */
  lemma RewoundCarouselHighlightsFirst(st: FetchState, city: Option<string>, loaded: bool, ready: bool)
    requires Render(st, city, loaded, ready, 0).Carousel?
    requires Render(st, city, loaded, ready, 0).nav.Shown?
    ensures var dots := Render(st, city, loaded, ready, 0).nav.dots;
      dots[0] && Highlighted(dots) == 1
  {
    var n := |st.data.value.days.value|;
    OneDotHighlighted(n, 0);
  }
}

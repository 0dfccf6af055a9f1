/** The older forecast component in Temp.tsx: a classifier without the
    cloud branches and a view chain without the city check. */
module Temp {
  import opened Wrappers
  import opened Text
  import opened Context
  import opened Display
  import SliderContainer

  /** `getWeatherIcon` of this component. */
  function WeatherIcon(condition: string): Icon
  {
    var l := Lower(condition);
    if Contains(l, "sun") || Contains(l, "clear") then Icon(Sun, 12, "text-yellow-500")
    else if Contains(l, "rain") || Contains(l, "drizzle") then Icon(CloudRain, 12, "text-blue-500")
    else if Contains(l, "snow") then Icon(CloudSnow, 12, "text-blue-200")
    else if Contains(l, "fog") || Contains(l, "mist") then Icon(CloudFog, 12, "text-gray-400")
    else Icon(Cloud, 12, "text-gray-500")
  }

  lemma IconFollowsPriority(condition: string)
    ensures WeatherIcon(condition).kind == FirstMatch(Priority, Lower(condition))
  {
    PriorityChain(Lower(condition));
  }

  lemma IconIgnoresCase(s: string, t: string)
    requires SameIgnoringCase(s, t)
    ensures WeatherIcon(s) == WeatherIcon(t)
  {
    SameIgnoringCaseLower(s, t);
  }

  /** On every condition both classifiers pick the same icon; only size and
      colour differ. */
  lemma IconAgreesWithSlider(condition: string)
    ensures WeatherIcon(condition).kind == SliderContainer.WeatherIcon(condition).kind
  {
    IconFollowsPriority(condition);
    SliderContainer.IconFollowsPriority(condition);
  }

  /** The view chain: loading, then error, then no days, then the carousel. */
  function Render(st: FetchState, loaded: bool, ready: bool, currentSlide: int): (v: View)
    ensures v == Spinner <==> st.loading
    ensures v.ErrorPanel? <==> !st.loading && Truthy(st.error)
    ensures v.ErrorPanel? ==> v.message == st.error.value
    ensures v == NoData <==> !st.loading && !Truthy(st.error) && !HasDays(st.data)
    ensures v != Nothing
    ensures v.Carousel? ==> HasDays(st.data) && v == CarouselOf(st.data, loaded, ready, currentSlide)
  {
    if st.loading then Spinner
    else if st.error.Some? && st.error.value != "" then ErrorPanel(st.error.value)
    else if !HasDays(st.data) then NoData
    else CarouselOf(st.data, loaded, ready, currentSlide)
  }

  /** With a city set the two components render the same view; without one,
      this component falls through to the no-data notice or, with data kept,
      the carousel where the other renders nothing, so the blank initial
      state shows the notice here. */
  lemma RenderAgreesWithSlider(st: FetchState, city: Option<string>, loaded: bool, ready: bool, currentSlide: int)
    ensures Truthy(city) ==> Render(st, loaded, ready, currentSlide) == SliderContainer.Render(st, city, loaded, ready, currentSlide)
    ensures !Truthy(city) && SliderContainer.Render(st, city, loaded, ready, currentSlide) == Nothing ==>
      Render(st, loaded, ready, currentSlide).NoData? || Render(st, loaded, ready, currentSlide).Carousel?
    ensures Render(Initial, loaded, ready, currentSlide) == NoData
  {
  }
}

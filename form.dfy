/** The city form: the constraints declared on its input (`required`,
    `minLength={2}`, `maxLength={50}`, `pattern="[A-Za-z\s\-]+"`), which the
    browser checks before the submit handler runs, `handleSubmit` (trim, and
    skip an empty value), `handleClear`, and the two conditional elements. */
module Form {
  import opened Wrappers
  import opened Text
  import opened Context

  const MinLength: nat := 2
  const MaxLength: nat := 50

  /** A character of the class `[A-Za-z\s\-]`. */
  predicate PatternChar(c: char)
  {
    ('A' <= c <= 'Z') || ('a' <= c <= 'z') || IsSpace(c) || c == '-'
  }

  /** `[A-Za-z\s\-]+` matched against the whole value, one character after another. */
  predicate MatchesPattern(v: string)
    decreases |v|
  {
    |v| >= 1 && PatternChar(v[0]) && (|v| == 1 || MatchesPattern(v[1..]))
  }

  /** The validity flags of the HTML constraint validation API, for a value
      the user typed. Lengths count the raw value. */
  predicate ValueMissing(v: string) { v == [] }
  predicate TooShort(v: string) { v != [] && |v| < MinLength }
  predicate TooLong(v: string) { |v| > MaxLength }
  predicate PatternMismatch(v: string) { v != [] && !MatchesPattern(v) }

  /** The browser lets the form submit only when no flag is raised. */
  predicate Accepts(v: string)
  {
    !ValueMissing(v) && !TooShort(v) && !TooLong(v) && !PatternMismatch(v)
  }

  lemma {:induction false} MatchesPatternIff(v: string)
    ensures MatchesPattern(v) <==> v != [] && forall i :: 0 <= i < |v| ==> PatternChar(v[i])
    decreases |v|
  {
    if |v| > 1 {
      MatchesPatternIff(v[1..]);
      if forall i :: 0 <= i < |v| ==> PatternChar(v[i]) {
        assert forall i :: 0 <= i < |v[1..]| ==> PatternChar(v[1..][i]);
      }
      if MatchesPattern(v) {
        forall i | 0 <= i < |v| ensures PatternChar(v[i]) {
          if i > 0 { assert v[i] == v[1..][i - 1]; }
        }
      }
    }
  }

  /** The declared constraints accept exactly the values of 2 to 50
      characters made only of ASCII letters, white space and hyphens. */
  lemma AcceptsExactly(v: string)
    ensures Accepts(v) <==> MinLength <= |v| <= MaxLength && forall i :: 0 <= i < |v| ==> PatternChar(v[i])
  {
    MatchesPatternIff(v);
  }

  /** `formData.get('city')?.toString().trim()` followed by the emptiness
      test: the value handed to `setCity`, if any. */
  function SubmittedCity(entry: Option<string>): (c: Option<string>)
    ensures c.Some? ==> entry.Some? && c.value == Trim(entry.value) && c.value != []
    ensures c.None? ==> entry.None? || AllSpace(entry.value)
  {
    match entry
    case None => None
    case Some(v) =>
      TrimEmptyIffAllSpace(v);
      var t := Trim(v);
      if t != [] then Some(t) else None
  }

  /** What reaches `setCity` when the user submits `raw`. */
  function SubmitOutcome(raw: string): Option<string>
  {
    if Accepts(raw) then SubmittedCity(Some(raw)) else None
  }

  /** A submitted city is non-empty, at most 50 characters of the allowed
      set, carries no white space at either end, and occurs in what was
      typed. It may be shorter than the declared minimum. */
  lemma SubmittedCityShape(raw: string)
    requires SubmitOutcome(raw).Some?
    ensures var c := SubmitOutcome(raw).value;
      c != [] && |c| <= MaxLength
      && (forall i :: 0 <= i < |c| ==> PatternChar(c[i]))
      && !IsSpace(c[0]) && !IsSpace(c[|c| - 1])
      && Contains(raw, c)
  {
    var c := SubmitOutcome(raw).value;
    var i := TrimSlice(raw);
    AcceptsExactly(raw);
    SliceKeepsPatternChars(raw, i, i + |c|);
    assert OccursAt(raw, c, i);
  }

  lemma SliceKeepsPatternChars(v: string, i: nat, j: nat)
    requires i <= j <= |v|
    requires forall k :: 0 <= k < |v| ==> PatternChar(v[k])
    ensures forall k :: 0 <= k < j - i ==> PatternChar(v[i..j][k])
  {
    forall k | 0 <= k < j - i ensures PatternChar(v[i..j][k]) {
      assert v[i..j][k] == v[i + k];
    }
  }

  /** The length and the pattern look at the raw value and trimming comes
      after: "  a" is accepted and submitted as "a", below the minimum length. */
  lemma PaddedLetterSubmitted()
    ensures Accepts("  a") && SubmitOutcome("  a") == Some("a")
  {
    PaddedLetterAccepted();
    PaddedLetterTrimmed();
  }

  lemma PaddedLetterAccepted()
    ensures Accepts("  a")
  {
    assert "  a"[1..] == " a" && " a"[1..] == "a";
    assert MatchesPattern("a");
    assert MatchesPattern(" a");
  }

  lemma PaddedLetterTrimmed()
    ensures Trim("  a") == "a"
  {
    assert "  a"[0] == ' ' && "  a"[1] == ' ' && "  a"[2] == 'a';
    assert SkipLeading("  a", 2) == 2;
    assert SkipLeading("  a", 0) == 2;
    assert SkipTrailing("  a", 2, 3) == 3;
  }

  /** White space alone passes the declared constraints and is then ignored. */
  lemma BlankAcceptedThenIgnored()
    ensures Accepts("   ") && SubmitOutcome("   ") == None
  {
    assert "   "[1..] == "  " && "  "[1..] == " ";
    assert MatchesPattern(" ");
    assert MatchesPattern("  ");
    assert AllSpace("   ");
  }

  /** A single letter is refused before the handler runs. */
  lemma SingleLetterRefused()
    ensures !Accepts("a") && SubmitOutcome("a") == None
  {
    assert TooShort("a");
  }

  /** `handleSubmit`: a non-empty trimmed value goes to `setCity`, which
      starts a fetch when it differs from the current city; otherwise the
      store is left as it was. */
  method HandleSubmit(store: WeatherStore, entry: Option<string>) returns (req: Option<Request>)
    modifies store
    ensures SubmittedCity(entry).None? ==>
      req == None && store.city == old(store.city) && store.Fetch() == old(store.Fetch())
    ensures SubmittedCity(entry).Some? ==> store.city == SubmittedCity(entry)
    ensures SubmittedCity(entry).Some? ==>
      (req.Some? <==> SubmittedCity(entry) != old(store.city))
    ensures req.Some? ==> req.value == Request(store.city) && store.Fetch() == Start(old(store.Fetch()))
    ensures req.None? ==> store.Fetch() == old(store.Fetch())
    ensures old(store.Valid()) ==> store.Valid()
  {
    var c := SubmittedCity(entry);
    if c.Some? {
      req := store.SetCity(c);
    } else {
      req := None;
    }
  }

  /** A fetch for the current city fails, and the user submits that same
      city again (padding aside): no retry starts, and the error message and
      the old data stay on screen. */
  method ResubmitAfterFailure(store: WeatherStore, entry: Option<string>) returns (req: Option<Request>)
    requires SubmittedCity(entry).Some? && SubmittedCity(entry) == store.city
    modifies store
    ensures req == None
    ensures store.city == old(store.city)
    ensures store.error == Some(FailMessage) && !store.loading && store.data == old(store.data)
  {
    store.CompleteFail(Request(store.city));
    req := HandleSubmit(store, entry);
  }

  /** `handleClear`: the city becomes null (no fetch starts), then
      `clearWeather` runs. */
  method HandleClear(store: WeatherStore, clear: FetchState -> FetchState)
    modifies store
    ensures store.city == None && !ClearButtonShown(store.city)
    ensures store.Fetch() == clear(old(store.Fetch()))
  {
    var req := store.SetCity(None);
    store.ClearWeather(clear);
  }

  /** The clear button is rendered only while a city is set. */
  function ClearButtonShown(city: Option<string>): (shown: bool)
    ensures shown <==> city.Some? && city.value != []
  {
    Truthy(city)
  }

  /** The alert above the form: the error text, exactly when it is truthy. */
  function ErrorBanner(error: Option<string>): (banner: Option<string>)
    ensures banner.Some? <==> error.Some? && error.value != []
    ensures banner.Some? ==> banner == error
  {
    if Truthy(error) then error else None
  }

  /** The banner follows the fetch: hidden once a fetch starts, showing the
      fixed message after a failure, unchanged by a success. */
  lemma BannerFollowsFetch(st: FetchState, body: WeatherData)
    ensures ErrorBanner(Start(st).error) == None
    ensures ErrorBanner(Resolve(st, Failed).error) == Some(FailMessage)
    ensures ErrorBanner(Resolve(st, Ok(body)).error) == ErrorBanner(st.error)
  {
  }
}

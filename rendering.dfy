/**
 * The two switches that turn a verdict tag into report text, reduced to the
 * choice they make: which status label `get_compatibility_html` shows and
 * which `CURLOPT_SSLVERSION` snippet comes with it, and which recommendation
 * `get_recommendation_html` gives. The tag is an arbitrary string here, as
 * in the source, so unrecognised tags are covered too.
 */
module Rendering {
  import opened Optional
  import opened PhpSwitch
  import opened TlsCompat

  /** The `CURLOPT_SSLVERSION` value a snippet tells the user to set. */
  datatype SslVersionOption = CurlSslVersionTlsV1 | CurlSslVersionTlsV1_2

  /** The status label: success, warning with an override snippet, or danger ("Incompatible"). */
  datatype StatusLabel = Success | Warning(override: SslVersionOption) | Danger

  /** The recommendation: update stripe-php (maybe with an override), or upgrade PHP, curl and OpenSSL. */
  datatype Recommendation = UpdateLibrary(override: Option<SslVersionOption>) | UpgradeStack

  /** The cases of `get_compatibility_html`; `"KO"` falls through to `default`. */
  function CompatibilityCases(): seq<Case<StatusLabel>>
  {
    [Case(Tag(Ok), Success),
     Case(Tag(OkV1), Warning(CurlSslVersionTlsV1)),
     Case(Tag(OkV1_2), Warning(CurlSslVersionTlsV1_2)),
     Case(Tag(Ko), Danger)]
  }

  function CompatibilityLabel(result: string): (r: StatusLabel)
    ensures r == Success <==> result == "OK"
    ensures r == Warning(CurlSslVersionTlsV1) <==> result == "OK_v1"
    ensures r == Warning(CurlSslVersionTlsV1_2) <==> result == "OK_v1_2"
    ensures r == Danger <==> result != "OK" && result != "OK_v1" && result != "OK_v1_2"
  {
    var cases := CompatibilityCases();
    var i := SwitchIndex(cases, result);
    assert i.Some? ==> i.value < 4 && cases[i.value].key == result;
    assert i.None? ==> forall k | 0 <= k < 4 :: cases[k].key != result;
    Switch(cases, result, Danger)
  }

  /**
   * The cases of `get_recommendation_html`. The fourth repeats the third's
   * `"OK_v1_2"` and falls through to `default`.
   */
  function RecommendationCases(): seq<Case<Recommendation>>
  {
    [Case(Tag(Ok), UpdateLibrary(None)),
     Case(Tag(OkV1), UpdateLibrary(Some(CurlSslVersionTlsV1))),
     Case(Tag(OkV1_2), UpdateLibrary(Some(CurlSslVersionTlsV1_2))),
     Case(Tag(OkV1_2), UpgradeStack)]
  }

  function RecommendationFor(result: string): (r: Recommendation)
    ensures r == UpdateLibrary(None) <==> result == "OK"
    ensures r == UpdateLibrary(Some(CurlSslVersionTlsV1)) <==> result == "OK_v1"
    ensures r == UpdateLibrary(Some(CurlSslVersionTlsV1_2)) <==> result == "OK_v1_2"
    ensures r == UpgradeStack <==> result != "OK" && result != "OK_v1" && result != "OK_v1_2"
  {
    var cases := RecommendationCases();
    var i := SwitchIndex(cases, result);
    assert i.Some? ==> i.value < 4 && cases[i.value].key == result;
    assert i.None? ==> forall k | 0 <= k < 4 :: cases[k].key != result;
    Switch(cases, result, UpgradeStack)
  }

  /** The second `case "OK_v1_2"` of `get_recommendation_html` is never entered. */
  lemma SecondOkV1_2CaseUnreachable(result: string)
    ensures SwitchIndex(RecommendationCases(), result) != Some(3)
  {
    ShadowedCaseNeverTaken(RecommendationCases(), 2, 3, result);
  }

  /** Each verdict is shown with its own label, and the recommendation names the same override. */
  lemma VerdictRendering(v: Verdict)
    ensures v == Ok ==> CompatibilityLabel(Tag(v)) == Success && RecommendationFor(Tag(v)) == UpdateLibrary(None)
    ensures v == OkV1 ==> CompatibilityLabel(Tag(v)) == Warning(CurlSslVersionTlsV1) &&
                          RecommendationFor(Tag(v)) == UpdateLibrary(Some(CurlSslVersionTlsV1))
    ensures v == OkV1_2 ==> CompatibilityLabel(Tag(v)) == Warning(CurlSslVersionTlsV1_2) &&
                            RecommendationFor(Tag(v)) == UpdateLibrary(Some(CurlSslVersionTlsV1_2))
    ensures v == Ko ==> CompatibilityLabel(Tag(v)) == Danger && RecommendationFor(Tag(v)) == UpgradeStack
  {
  }

  /**
   * For any tag, the recommendation points back at the snippet the label
   * shows ("as shown above"), and asks for a stack upgrade exactly when the
   * label reads "Incompatible".
   */
  lemma RecommendationMatchesLabel(result: string)
    ensures CompatibilityLabel(result) == Danger <==> RecommendationFor(result) == UpgradeStack
    ensures CompatibilityLabel(result) == Success <==> RecommendationFor(result) == UpdateLibrary(None)
    ensures forall o :: CompatibilityLabel(result) == Warning(o) <==> RecommendationFor(result) == UpdateLibrary(Some(o))
  {
  }

}

/**
 * The compatibility resolver of the stripe-php TLS compatibility tool.
 *
 * Three probes report the TLS version that an outbound connection
 * negotiated: one with no `CURLOPT_SSLVERSION` constraint (`default`), one
 * forced to `CURL_SSLVERSION_TLSv1` (`TLSv1`) and one forced to
 * `CURL_SSLVERSION_TLSv1_2` (`TLSv1_2`). From these three labels and
 * OpenSSL's `OPENSSL_VERSION_NUMBER` the resolver gives a verdict for each of
 * four stripe-php release bands, following how those releases set
 * `CURLOPT_SSLVERSION`. A label counts only when it is exactly "TLS 1.2";
 * any other label, including a probe's error message, does not.
 */
module TlsCompat {
  import opened Optional
  import opened PhpSwitch

  /** The one negotiated-protocol label that the resolver accepts. */
  const TLS_1_2: string := "TLS 1.2"

  /** OpenSSL 1.0.1 (release): stripe-php 3.19.0 to 3.23.0 force TLS 1.2 from here on. */
  const OPENSSL_THRESHOLD: int := 0x1000100f

  /** The `$tls_tests` array: the label each probe reported, by constraint. */
  datatype TlsTests = TlsTests(unconstrained: string, tlsV1: string, tlsV1_2: string)

  /** A band's verdict; `Tag` gives the string the source stores for it. */
  datatype Verdict = Ok | OkV1 | OkV1_2 | Ko

  function Tag(v: Verdict): string
  {
    match v
    case Ok => "OK"
    case OkV1 => "OK_v1"
    case OkV1_2 => "OK_v1_2"
    case Ko => "KO"
  }

  /** The four stripe-php release bands; `Key` gives the key of `$compat` for each. */
  datatype Band = UpTo3_6_0 | From3_7_0To3_18_0 | From3_19_0To3_23_0 | From4_0

  function Key(b: Band): string
  {
    match b
    case UpTo3_6_0 => "<=3.6.0"
    case From3_7_0To3_18_0 => ">=3.7.0 && <= 3.18.0"
    case From3_19_0To3_23_0 => ">=3.19.0 && <= 3.23.0"
    case From4_0 => ">=4.0"
  }

  const ALL_BANDS: set<Band> := {UpTo3_6_0, From3_7_0To3_18_0, From3_19_0To3_23_0, From4_0}

  /** The tags are distinct strings, and so are the keys: the array has four entries. */
  lemma TagsAndKeysDistinct(v: Verdict, w: Verdict, b: Band, c: Band)
    ensures Tag(v) == Tag(w) <==> v == w
    ensures Key(b) == Key(c) <==> b == c
  {
  }

  /**
   * stripe-php 3.19.0 to 3.23.0 forced TLSv1_2 when OpenSSL is at least
   * 1.0.1 and TLSv1 otherwise, so the probe run under the same constraint
   * decides.
   */
  function Compat3_19_0(opensslVersion: int, tlsV1: string, tlsV1_2: string): (r: Verdict)
    ensures r == Ok || r == Ko
    ensures opensslVersion >= OPENSSL_THRESHOLD ==> (r == Ok <==> tlsV1_2 == TLS_1_2)
    ensures opensslVersion < OPENSSL_THRESHOLD ==> (r == Ok <==> tlsV1 == TLS_1_2)
  {
    if opensslVersion >= OPENSSL_THRESHOLD then
      (if tlsV1_2 == TLS_1_2 then Ok else Ko)
    else
      (if tlsV1 == TLS_1_2 then Ok else Ko)
  }

  /**
   * The override a stripe-php >= 4.0 user needs, in order of preference: none
   * (the default probe), forcing TLSv1, forcing TLSv1_2. The verdict is that
   * of the first probe in this order that negotiated TLS 1.2, else Ko.
   */
  function PriorityTable(t: TlsTests): seq<Case<Verdict>>
  {
    [Case(t.unconstrained, Ok), Case(t.tlsV1, OkV1), Case(t.tlsV1_2, OkV1_2)]
  }

  function Compat4_0(t: TlsTests): (r: Verdict)
    ensures r == Ok <==> t.unconstrained == TLS_1_2
    ensures r == OkV1 ==> t.tlsV1 == TLS_1_2
    ensures r == OkV1_2 ==> t.tlsV1_2 == TLS_1_2
    ensures r == Ko <==> t.unconstrained != TLS_1_2 && t.tlsV1 != TLS_1_2 && t.tlsV1_2 != TLS_1_2
  {
    var table := PriorityTable(t);
    var i := SwitchIndex(table, TLS_1_2);
    assert i.Some? ==> table[i.value].arm != Ko;
    assert i.None? ==> table[0].key != TLS_1_2 && table[1].key != TLS_1_2 && table[2].key != TLS_1_2;
    Switch(table, TLS_1_2, Ko)
  }

  /** The verdict of one band: the entry `get_compat_array` stores under `Key(b)`. */
  function BandVerdict(t: TlsTests, opensslVersion: int, b: Band): (r: Verdict)
    ensures b != From4_0 ==> r == Ok || r == Ko
  {
    match b
    case UpTo3_6_0 => if t.unconstrained == TLS_1_2 then Ok else Ko
    case From3_7_0To3_18_0 => if t.tlsV1 == TLS_1_2 then Ok else Ko
    case From3_19_0To3_23_0 => Compat3_19_0(opensslVersion, t.tlsV1, t.tlsV1_2)
    case From4_0 => Compat4_0(t)
  }

  /**
   * `get_compat_array`: the array starts with every band's entry null and
   * each entry is then assigned in turn; in the end every band holds its
   * verdict.
   */
  method GetCompatArray(tlsTests: TlsTests, opensslVersion: int) returns (compat: map<Band, Option<Verdict>>)
    ensures compat.Keys == ALL_BANDS
    ensures forall b :: b in compat ==> compat[b].Some?
    ensures forall b :: b in compat ==> compat[b] == Some(BandVerdict(tlsTests, opensslVersion, b))
  {
    compat := map[UpTo3_6_0 := None, From3_7_0To3_18_0 := None,
                  From3_19_0To3_23_0 := None, From4_0 := None];

    // stripe-php <= 3.6.0 left CURLOPT_SSLVERSION alone
    compat := compat[UpTo3_6_0 := Some(if tlsTests.unconstrained == TLS_1_2 then Ok else Ko)];

    // stripe-php 3.7.0 to 3.18.0 always forced CURL_SSLVERSION_TLSv1
    compat := compat[From3_7_0To3_18_0 := Some(if tlsTests.tlsV1 == TLS_1_2 then Ok else Ko)];

    compat := compat[From3_19_0To3_23_0 := Some(Compat3_19_0(opensslVersion, tlsTests.tlsV1, tlsTests.tlsV1_2))];

    // stripe-php >= 4.0 leaves CURLOPT_SSLVERSION alone but lets users set it
    if tlsTests.unconstrained == TLS_1_2 {
      compat := compat[From4_0 := Some(Ok)];
    } else {
      if tlsTests.tlsV1 == TLS_1_2 {
        compat := compat[From4_0 := Some(OkV1)];
      } else {
        if tlsTests.tlsV1_2 == TLS_1_2 {
          compat := compat[From4_0 := Some(OkV1_2)];
        } else {
          compat := compat[From4_0 := Some(Ko)];
        }
      }
    }
    Compat4_0PriorityChain(tlsTests);
  }

  /** The <= 3.6.0 band is Ok exactly when the unconstrained probe got TLS 1.2 ... */
  lemma OldestBandFollowsDefaultProbe(t: TlsTests, opensslVersion: int)
    ensures BandVerdict(t, opensslVersion, UpTo3_6_0) == Ok <==> t.unconstrained == TLS_1_2
    ensures BandVerdict(t, opensslVersion, UpTo3_6_0) == Ko <==> t.unconstrained != TLS_1_2
  {
  }

  /** ... and no other input affects it. */
  lemma OldestBandIgnoresOtherInputs(t: TlsTests, v: int, t': TlsTests, v': int)
    requires t.unconstrained == t'.unconstrained
    ensures BandVerdict(t, v, UpTo3_6_0) == BandVerdict(t', v', UpTo3_6_0)
  {
  }

  /** The 3.7.0 to 3.18.0 band is Ok exactly when the TLSv1-forced probe got TLS 1.2 ... */
  lemma ForcedV1BandFollowsV1Probe(t: TlsTests, opensslVersion: int)
    ensures BandVerdict(t, opensslVersion, From3_7_0To3_18_0) == Ok <==> t.tlsV1 == TLS_1_2
    ensures BandVerdict(t, opensslVersion, From3_7_0To3_18_0) == Ko <==> t.tlsV1 != TLS_1_2
  {
  }

  /** ... and no other input affects it. */
  lemma ForcedV1BandIgnoresOtherInputs(t: TlsTests, v: int, t': TlsTests, v': int)
    requires t.tlsV1 == t'.tlsV1
    ensures BandVerdict(t, v, From3_7_0To3_18_0) == BandVerdict(t', v', From3_7_0To3_18_0)
  {
  }

  /** From OpenSSL 1.0.1 on, the TLSv1 probe plays no part in the 3.19.0 band. */
  lemma ModernOpenSslIgnoresV1Probe(opensslVersion: int, tlsV1: string, tlsV1': string, tlsV1_2: string)
    requires opensslVersion >= OPENSSL_THRESHOLD
    ensures Compat3_19_0(opensslVersion, tlsV1, tlsV1_2) == Compat3_19_0(opensslVersion, tlsV1', tlsV1_2)
  {
  }

  /** Below OpenSSL 1.0.1, the TLSv1_2 probe plays no part in the 3.19.0 band. */
  lemma LegacyOpenSslIgnoresV1_2Probe(opensslVersion: int, tlsV1: string, tlsV1_2: string, tlsV1_2': string)
    requires opensslVersion < OPENSSL_THRESHOLD
    ensures Compat3_19_0(opensslVersion, tlsV1, tlsV1_2) == Compat3_19_0(opensslVersion, tlsV1, tlsV1_2')
  {
  }

  /** 0x1000100f is the first version that selects the TLSv1_2 probe, 0x1000100e the last that selects TLSv1. */
  lemma ThresholdBoundary(tlsV1: string, tlsV1_2: string)
    ensures Compat3_19_0(0x1000100f, tlsV1, tlsV1_2) == Ok <==> tlsV1_2 == TLS_1_2
    ensures Compat3_19_0(0x1000100e, tlsV1, tlsV1_2) == Ok <==> tlsV1 == TLS_1_2
  {
  }

  /** The >= 4.0 rules are tried in a strict order; an earlier success wins. */
  lemma Compat4_0PriorityChain(t: TlsTests)
    ensures t.unconstrained == TLS_1_2 ==> Compat4_0(t) == Ok
    ensures t.unconstrained != TLS_1_2 && t.tlsV1 == TLS_1_2 ==> Compat4_0(t) == OkV1
    ensures t.unconstrained != TLS_1_2 && t.tlsV1 != TLS_1_2 && t.tlsV1_2 == TLS_1_2 ==> Compat4_0(t) == OkV1_2
    ensures t.unconstrained != TLS_1_2 && t.tlsV1 != TLS_1_2 && t.tlsV1_2 != TLS_1_2 ==> Compat4_0(t) == Ko
  {
    var table := PriorityTable(t);
    if t.unconstrained != TLS_1_2 {
      assert table[1..] == [Case(t.tlsV1, OkV1), Case(t.tlsV1_2, OkV1_2)];
      if t.tlsV1 == TLS_1_2 {
        assert SwitchIndex(table[1..], TLS_1_2) == Some(0);
      } else if t.tlsV1_2 == TLS_1_2 {
        assert SwitchIndex(table[1..], TLS_1_2) == Some(1);
      }
    }
  }

  /** Every probe at TLS 1.2: every band is Ok, whatever the OpenSSL version. */
  lemma AllProbesTls12AllOk(t: TlsTests, opensslVersion: int)
    requires t.unconstrained == TLS_1_2 && t.tlsV1 == TLS_1_2 && t.tlsV1_2 == TLS_1_2
    ensures forall b :: BandVerdict(t, opensslVersion, b) == Ok
  {
  }

  /** No probe at TLS 1.2 (an older version, a newer one, or an error): every band is Ko. */
  lemma NoProbeTls12AllKo(t: TlsTests, opensslVersion: int)
    requires t.unconstrained != TLS_1_2 && t.tlsV1 != TLS_1_2 && t.tlsV1_2 != TLS_1_2
    ensures forall b :: BandVerdict(t, opensslVersion, b) == Ko
  {
  }

  /** The >= 4.0 band needs no override exactly when the <= 3.6.0 band is compatible. */
  lemma NewestAgreesWithOldestBand(t: TlsTests, opensslVersion: int)
    ensures BandVerdict(t, opensslVersion, From4_0) == Ok <==> BandVerdict(t, opensslVersion, UpTo3_6_0) == Ok
  {
  }

  /** When no override rescues the >= 4.0 band, the three older bands are incompatible too. */
  lemma NewestKoOnlyIfOlderBandsKo(t: TlsTests, opensslVersion: int)
    ensures BandVerdict(t, opensslVersion, From4_0) == Ko ==>
              BandVerdict(t, opensslVersion, UpTo3_6_0) == Ko &&
              BandVerdict(t, opensslVersion, From3_7_0To3_18_0) == Ko &&
              BandVerdict(t, opensslVersion, From3_19_0To3_23_0) == Ko
  {
  }

  /** Only the TLSv1_2-forced probe reaches TLS 1.2, on OpenSSL 1.0.1. */
  lemma OnlyForcedModernSucceeds()
    ensures var t := TlsTests("TLS 1.0", "TLS 1.0", "TLS 1.2");
            BandVerdict(t, 0x1000100f, UpTo3_6_0) == Ko &&
            BandVerdict(t, 0x1000100f, From3_7_0To3_18_0) == Ko &&
            BandVerdict(t, 0x1000100f, From3_19_0To3_23_0) == Ok &&
            BandVerdict(t, 0x1000100f, From4_0) == OkV1_2
  {
  }

  /** The unconstrained probe failed; the other two reached TLS 1.2. */
  lemma FailedDefaultProbe(opensslVersion: int)
    ensures var t := TlsTests("Error! errno = 35, msg = SSL connect error", "TLS 1.2", "TLS 1.2");
            BandVerdict(t, opensslVersion, UpTo3_6_0) == Ko &&
            BandVerdict(t, opensslVersion, From3_7_0To3_18_0) == Ok &&
            BandVerdict(t, opensslVersion, From3_19_0To3_23_0) == Ok &&
            BandVerdict(t, opensslVersion, From4_0) == OkV1
  {
  }

}

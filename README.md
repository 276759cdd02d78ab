# stripe-php TLS compatibility resolver

A model of the decision logic of `stripe-php-tls-compat.php`. That tool probes which TLS version the
server's outbound curl connections negotiate, then tells the operator which releases of Stripe's PHP
library can still reach the API once TLS 1.0 is turned off.

The tool runs three probes:
- `default`, with no `CURLOPT_SSLVERSION`;
- `TLSv1`, forced to `CURL_SSLVERSION_TLSv1`;
- `TLSv1_2`, forced to `CURL_SSLVERSION_TLSv1_2`.

Each probe gives a label such as `"TLS 1.2"`, or an error message. The resolver (`get_compat_array`)
takes the three labels and `OPENSSL_VERSION_NUMBER`. It gives a verdict for four stripe-php release
bands: `<=3.6.0`, `>=3.7.0 && <= 3.18.0`, `>=3.19.0 && <= 3.23.0` and `>=4.0`. The verdict is `OK`,
`OK_v1` (compatible when the user forces TLSv1), `OK_v1_2` (compatible when the user forces TLSv1_2)
or `KO`. Two renderers turn a verdict tag into a status label and a recommendation.

Files:
- `optional.dfy`: `Option`, which stands for PHP's `null`.
- `php_switch.dfy`: the semantics of PHP's `switch` as the renderers use it. Cases are tried in order
  with `==`, the first match is entered, and an empty case falls through.
- `tls_compat.dfy`: labels, verdicts and bands. Also the 3.19.0–3.23.0 OpenSSL threshold rule, the
  ≥4.0 priority chain, and `GetCompatArray`.
- `rendering.dfy`: `get_compatibility_html` and `get_recommendation_html`, reduced to the choice they
  make.

`GetCompatArray` follows the source step by step. It builds a map whose four entries start as `None`
(the source's `null`), then assigns each band in turn. The ≥4.0 band is assigned through the same
nested conditionals as the source. Its contract ties every entry to `BandVerdict`. The ≥4.0 band's
`BandVerdict` is `Compat4_0`, which is defined independently as "the override of the first probe, in
priority order, that negotiated TLS 1.2". The lemmas state the band rules about `BandVerdict`.

PHP's `==` between two non-numeric strings is plain string equality. Every comparison in the core is
of that kind (`"TLS 1.2"`, `"OK"`, `"OK_v1"`, `"OK_v1_2"`, `"KO"`), so labels and tags are modelled
as `string` compared with `==`. A label such as `"TLS 1.3"`, or a probe's `"Error! errno = …"`
message, is therefore never compatible. A probe failure is such an error string, not a separate
kind of outcome.

## Model

| member | source | states |
|---|---|---|
| `TlsCompat.GetCompatArray` | stripe-php-tls-compat.php:40-82 | the result has exactly the four band keys, none left null, and each holds that band's verdict |
| `TlsCompat.BandVerdict` | stripe-php-tls-compat.php:49-79 | the three older bands are always `OK` or `KO` |
| `TlsCompat.Compat3_19_0` | stripe-php-tls-compat.php:93-100 | always `OK` or `KO`; at or above `0x1000100f` it is `OK` iff the TLSv1_2 probe got TLS 1.2, below it iff the TLSv1 probe did |
| `TlsCompat.Compat4_0` | stripe-php-tls-compat.php:65-79 | `OK` iff the default probe got TLS 1.2; `KO` iff no probe did; an override verdict only when the probe run under that override got TLS 1.2 |
| `TlsCompat.Compat4_0PriorityChain` | stripe-php-tls-compat.php:67-79 | strict order: default, then TLSv1 override, then TLSv1_2 override, then `KO`; an earlier success wins even when later probes also succeed |
| `TlsCompat.TagsAndKeysDistinct` | stripe-php-tls-compat.php:42-47 | the four array keys are distinct and so are the four verdict tags |
| `TlsCompat.OldestBandFollowsDefaultProbe` | stripe-php-tls-compat.php:50 | `<=3.6.0` is `OK` iff the default probe got TLS 1.2, `KO` otherwise |
| `TlsCompat.OldestBandIgnoresOtherInputs` | stripe-php-tls-compat.php:49-50 | `<=3.6.0` depends on nothing but the default probe |
| `TlsCompat.ForcedV1BandFollowsV1Probe` | stripe-php-tls-compat.php:54 | `>=3.7.0 && <= 3.18.0` is `OK` iff the TLSv1 probe got TLS 1.2, `KO` otherwise |
| `TlsCompat.ForcedV1BandIgnoresOtherInputs` | stripe-php-tls-compat.php:52-54 | `>=3.7.0 && <= 3.18.0` depends on nothing but the TLSv1 probe |
| `TlsCompat.ModernOpenSslIgnoresV1Probe` | stripe-php-tls-compat.php:95-96 | at or above the threshold the TLSv1 probe has no effect on the 3.19.0 band |
| `TlsCompat.LegacyOpenSslIgnoresV1_2Probe` | stripe-php-tls-compat.php:97-98 | below the threshold the TLSv1_2 probe has no effect on the 3.19.0 band |
| `TlsCompat.ThresholdBoundary` | stripe-php-tls-compat.php:95 | `0x1000100f` selects the TLSv1_2 probe and `0x1000100e` the TLSv1 probe |
| `TlsCompat.AllProbesTls12AllOk` | stripe-php-tls-compat.php:50-79 | all three probes at TLS 1.2 make every band `OK`, for any OpenSSL version |
| `TlsCompat.NoProbeTls12AllKo` | stripe-php-tls-compat.php:50-79 | no probe at TLS 1.2 (another version, or an error) makes every band `KO` |
| `TlsCompat.NewestAgreesWithOldestBand` | stripe-php-tls-compat.php:50-68 | `>=4.0` is `OK` iff `<=3.6.0` is `OK` |
| `TlsCompat.NewestKoOnlyIfOlderBandsKo` | stripe-php-tls-compat.php:50-79 | `>=4.0` is `KO` only if the three older bands are all `KO` |
| `TlsCompat.OnlyForcedModernSucceeds` | stripe-php-tls-compat.php:50-79 | with only the TLSv1_2 probe at TLS 1.2 on OpenSSL `0x1000100f`: `KO`, `KO`, `OK`, `OK_v1_2` |
| `TlsCompat.FailedDefaultProbe` | stripe-php-tls-compat.php:19-28 | a curl error message as the default label, with the other probes at TLS 1.2: `KO`, `OK`, `OK`, `OK_v1` |
| `PhpSwitch.SwitchIndex` | stripe-php-tls-compat.php:111-131 | the case entered matches the subject and no earlier case does; `default` is entered iff no case matches |
| `PhpSwitch.Switch` | stripe-php-tls-compat.php:143-160 | the arm run is that of the first matching case, or the `default` arm when none matches |
| `PhpSwitch.ShadowedCaseNeverTaken` | stripe-php-tls-compat.php:149-153 | a case whose label repeats an earlier case's label is never entered |
| `Rendering.CompatibilityLabel` | stripe-php-tls-compat.php:109-132 | `OK` gives the success label; `OK_v1` / `OK_v1_2` give a warning whose snippet sets `CURL_SSLVERSION_TLSv1` / `CURL_SSLVERSION_TLSv1_2`; `KO` and every other string give danger ("Incompatible") |
| `Rendering.RecommendationFor` | stripe-php-tls-compat.php:141-163 | `OK`, `OK_v1`, `OK_v1_2` recommend updating stripe-php, with the matching override for the last two; every other string gets the "not capable of TLS 1.2" upgrade text |
| `Rendering.SecondOkV1_2CaseUnreachable` | stripe-php-tls-compat.php:152-153 | the second `case "OK_v1_2"` is never entered |
| `Rendering.VerdictRendering` | stripe-php-tls-compat.php:111-159 | each of the four verdicts gets its own label and recommendation |
| `Rendering.RecommendationMatchesLabel` | stripe-php-tls-compat.php:146-151 | for every tag, the recommendation names the same override as the label's snippet ("as shown above") and asks for a stack upgrade exactly when the label is "Incompatible" |

## Left out

- `get_tls_version` (stripe-php-tls-compat.php:11-30) performs network I/O: a curl request to howsmyssl.com, then `json_decode`. The model takes its three labels as inputs. As written, its line 16 tests the undefined `$sslversion` instead of the parameter `$curl_ssl_opt`, so it never applies the requested constraint. This is a probe defect, outside the resolver.
- If the probe's JSON cannot be decoded, the label can be `null`. PHP's `null == 'TLS 1.2'` is false, so such a label acts like any string other than `"TLS 1.2"`. Labels are therefore modelled as strings only.
- Environment introspection and hex formatting (stripe-php-tls-compat.php:166-179) are runtime reads displayed as they are: `PHP_OS`, `php_uname`, `curl_version`, `sprintf('0x%08x', …)`. The OpenSSL version number is an input.
- The literal HTML of the two renderers and the page template (stripe-php-tls-compat.php:184-387) are left out. Only the choice each switch makes is modelled. The template's wiring is not modelled either: one label per band, and the recommendation taken from the `>=4.0` band.
- The `return $recommendation;` at stripe-php-tls-compat.php:162 is left out. Every path of the switch before it returns, so it is never reached.

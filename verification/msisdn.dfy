/** The phone-number clean-up every SIM batch applies before a lookup:
    strip the entry, then rewrite the local prefix "08" to the international
    "628". */
module Msisdn {
  import opened Strings

  const LocalPrefix := "08"
  const InternationalPrefix := "628"

  /** `"628" + m[2:]` when `m` starts with "08", `m` otherwise. */
  function ToInternational(m: string): (r: string)
    ensures StartsWith(m, LocalPrefix) ==> r == InternationalPrefix + m[2..]
    ensures !StartsWith(m, LocalPrefix) ==> r == m
    ensures |r| == |m| + (if StartsWith(m, LocalPrefix) then 1 else 0)
    ensures !StartsWith(r, LocalPrefix)
  {
    if StartsWith(m, LocalPrefix) then
      var r := InternationalPrefix + m[2..];
      assert r[0] == '6' != LocalPrefix[0];
      r
    else m
  }

  /** The inverse rewrite, from "628" back to "08". */
  function ToLocal(r: string): string {
    if StartsWith(r, InternationalPrefix) then LocalPrefix + r[3..] else r
  }

  /** Rewriting back recovers the original number for a local number and for
      any number that did not already carry the international prefix. */
  lemma LocalRoundTrip(m: string)
    requires StartsWith(m, LocalPrefix) || !StartsWith(m, InternationalPrefix)
    ensures ToLocal(ToInternational(m)) == m
  {
    if StartsWith(m, LocalPrefix) {
      var r := ToInternational(m);
      assert r[..3] == InternationalPrefix;
      assert r[3..] == m[2..];
      assert m == m[..2] + m[2..];
    }
  }

  lemma ToInternationalIdempotent(m: string)
    ensures ToInternational(ToInternational(m)) == ToInternational(m)
  {
  }

  /** The rewrite keeps a stripped number stripped: it starts with '6' and
      keeps the number's last character, or ends in '8' when only "08" was
      there. */
  lemma InternationalStaysStripped(m: string)
    requires IsStripped(m)
    ensures IsStripped(ToInternational(m))
  {
    if StartsWith(m, LocalPrefix) {
      var r := ToInternational(m);
      assert r[0] == '6';
      assert r[|r| - 1] == (if |m| == 2 then '8' else m[|m| - 1]);
    }
  }

  /** One entry as the batches use it: `m.strip()` then the prefix rewrite. */
  function CleanMsisdn(raw: string): (r: string)
    ensures StartsWith(Strip(raw), LocalPrefix) ==> r == InternationalPrefix + Strip(raw)[2..]
    ensures !StartsWith(Strip(raw), LocalPrefix) ==> r == Strip(raw)
    ensures StartsWith(Strip(raw), LocalPrefix) <==> |r| == |Strip(raw)| + 1
    ensures IsStripped(r)
    ensures !StartsWith(r, LocalPrefix)
  {
    var m := Strip(raw);
    InternationalStaysStripped(m);
    ToInternational(m)
  }

  /** Cleaning an already cleaned entry changes nothing. */
  lemma CleanIdempotent(raw: string)
    ensures CleanMsisdn(CleanMsisdn(raw)) == CleanMsisdn(raw)
  {
  }

  lemma StripSpacedNumber()
    ensures Strip(" 081234 ") == "081234"
  {
    StripFindsCore(" ", "081234", " ");
    assert " " + "081234" + " " == " 081234 ";
  }

  lemma ScenarioLocalNumber()
    ensures CleanMsisdn(" 081234 ") == "6281234"
  {
    StripSpacedNumber();
    var core := "081234";
    assert core[..2] == LocalPrefix;
    assert core[2..] == "1234";
  }

  lemma ScenarioInternationalNumber()
    ensures CleanMsisdn("6281234") == "6281234"
  {
    assert IsStripped("6281234");
    assert "6281234"[..2] != LocalPrefix;
  }
}

/** client/src/util/flags.ts: reading an on/off switch from the page's query string. Parsing
    `window.location.href` is outside the model: it arrives as its outcome, a failure (the
    constructor threw, or there is no window) or the parameter's value if present. */
module Flags {
  import opened Vectors
  import Text

  datatype UrlParse = ParseFailed | Parsed(param: Option<string>)

  /** `v === '' || v.toLowerCase() === 'true' || v === '1'`. */
  predicate Truthy(v: string)
  {
    v == "" || Text.Lower(v) == "true" || v == "1"
  }

  /** `v.toLowerCase() === 'false' || v === '0'`. */
  predicate Falsy(v: string)
  {
    Text.Lower(v) == "false" || v == "0"
  }

  /** `getFlag(name, fallback = false)`: true and false spellings decide, anything else (and a
      missing parameter or a failed parse) gives the fallback. */
  function GetFlag(parse: UrlParse, fallback: bool := false): (r: bool)
    ensures parse.ParseFailed? || parse.param.None? ==> r == fallback
    ensures parse.Parsed? && parse.param.Some? ==>
              (r <==> Truthy(parse.param.value) || (!Falsy(parse.param.value) && fallback))
  {
    match parse
    case ParseFailed => fallback
    case Parsed(None) => fallback
    case Parsed(Some(v)) =>
      if v == "" || Text.Lower(v) == "true" || v == "1" then true
      else if Text.Lower(v) == "false" || v == "0" then false
      else fallback
  }

  /** No value is both a true and a false spelling. */
  lemma TruthyFalsyDisjoint(v: string)
    ensures !(Truthy(v) && Falsy(v))
  {
    if Text.Lower(v) == "false" {
      assert |v| == 5;
    }
  }

  /** A true or false spelling decides the flag whatever the fallback. */
  lemma RecognisedIgnoresFallback(v: string)
    requires Truthy(v) || Falsy(v)
    ensures GetFlag(Parsed(Some(v)), true) == GetFlag(Parsed(Some(v)), false)
    ensures GetFlag(Parsed(Some(v)), true) == Truthy(v)
  {
    TruthyFalsyDisjoint(v);
  }

  /** A value equal to a one-digit string is so whatever the case of the other value's letters. */
  lemma DigitHasNoCase(v: string, w: string, d: char)
    requires Text.SameUpToCase(v, w) && '0' <= d <= '9'
    ensures v == [d] <==> w == [d]
  {
    if v == [d] {
      assert Text.LowerChar(w[0]) == d;
      assert w == [w[0]];
    }
    if w == [d] {
      assert Text.LowerChar(v[0]) == d;
      assert v == [v[0]];
    }
  }

  /** Letter case never matters: two values that differ only in case give the same flag. */
  lemma CaseInsensitive(v: string, w: string, fallback: bool)
    requires Text.SameUpToCase(v, w)
    ensures GetFlag(Parsed(Some(v)), fallback) == GetFlag(Parsed(Some(w)), fallback)
  {
    Text.LowerSameUpToCase(v, w);
    DigitHasNoCase(v, w, '1');
    DigitHasNoCase(v, w, '0');
    assert Truthy(v) <==> Truthy(w);
    assert Falsy(v) <==> Falsy(w);
  }

  /** Spellings the switch does not recognise, even near misses, leave the fallback. */
  lemma NearMissesFallBack(fallback: bool)
    ensures GetFlag(Parsed(Some(" 1")), fallback) == fallback
    ensures GetFlag(Parsed(Some("yes")), fallback) == fallback
    ensures GetFlag(Parsed(Some("TRUE")), fallback) && !GetFlag(Parsed(Some("False")), fallback)
  {
    LowerLetters("TRUE", "true");
    LowerLetters("False", "false");
  }

  /** Lower-casing a spelling yields `lower` when every character lower-cases to it. */
  lemma LowerLetters(v: string, lower: string)
    requires |v| == |lower| && forall i :: 0 <= i < |v| ==> Text.LowerChar(v[i]) == lower[i]
    ensures Text.Lower(v) == lower
  {
  }

  /** Called without a fallback, an unreadable or missing switch is off. */
  lemma DefaultOff(parse: UrlParse)
    requires parse.ParseFailed? || parse.param.None?
    ensures !GetFlag(parse)
  {
  }
}

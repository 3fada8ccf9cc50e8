/** Quoting one value as a CSV field (app.js:516-521), after section 2, rules 6 and 7 of
    RFC 4180: a field holding a double quote, a comma or a line feed is enclosed in double
    quotes, and every double quote inside it is doubled. */
module Csv {
  import opened Wrappers

  /** A field must be enclosed when it holds one of `"`, `,` or a line feed. */
  predicate NeedsQuoting(s: string)
  {
    exists i :: 0 <= i < |s| && s[i] in {'"', ',', '\n'}
  }

  /** `s.replace(/"/g, '""')`. */
  function EscapeQuotes(s: string): (t: string)
    ensures |t| >= |s|
    ensures '"' !in s ==> t == s
  {
    if s == [] then []
    else if s[0] == '"' then ['"', '"'] + EscapeQuotes(s[1..])
    else [s[0]] + EscapeQuotes(s[1..])
  }

  /** `csvValue(v)`: a missing value is the empty field; a value needing quotes is escaped and
      enclosed; any other value is written as it is. */
  function CsvValue(v: Option<string>): (field: string)
    ensures v.None? ==> field == ""
    ensures v.Some? && !NeedsQuoting(v.value) ==> field == v.value
    ensures v.Some? && NeedsQuoting(v.value) ==>
              |field| >= |v.value| + 2 && field[0] == '"' && field[|field| - 1] == '"'
  {
    match v
    case None => ""
    case Some(s) => if NeedsQuoting(s) then "\"" + EscapeQuotes(s) + "\"" else s
  }

  /** Reading back the inside of a quoted field: `""` stands for one quote; a lone quote is
      malformed. */
  function Unescape(t: string): Option<string>
  {
    if t == [] then Some([])
    else if t[0] == '"' then
      if |t| >= 2 && t[1] == '"' then
        match Unescape(t[2..])
        case Some(rest) => Some(['"'] + rest)
        case None => None
      else None
    else
      match Unescape(t[1..])
      case Some(rest) => Some([t[0]] + rest)
      case None => None
  }

  /** A reader for one field following RFC 4180: a field enclosed in quotes is unescaped, an
      unenclosed field is taken literally and may not hold a quote. */
  function ParseField(f: string): Option<string>
  {
    if |f| >= 2 && f[0] == '"' && f[|f| - 1] == '"' then Unescape(f[1..|f| - 1])
    else if '"' in f then None
    else Some(f)
  }

  /** Doubling the quotes is undone by reading them back. */
  lemma {:induction false} UnescapeEscapeQuotes(s: string)
    ensures Unescape(EscapeQuotes(s)) == Some(s)
  {
    if s != [] {
      UnescapeEscapeQuotes(s[1..]);
      var t := EscapeQuotes(s);
      if s[0] == '"' {
        assert t[0] == '"' && t[1] == '"' && t[2..] == EscapeQuotes(s[1..]);
      } else {
        assert t[0] == s[0] && t[1..] == EscapeQuotes(s[1..]);
      }
      assert s == [s[0]] + s[1..];
    }
  }

  /** Every present value is read back unchanged from the field `CsvValue` writes for it; the
      unenclosed fields are exactly the values with no quote, comma or line feed in them. */
  lemma CsvValueRoundTrip(s: string)
    ensures ParseField(CsvValue(Some(s))) == Some(s)
    ensures CsvValue(Some(s)) == s <==> !NeedsQuoting(s)
  {
    if NeedsQuoting(s) {
      var f := CsvValue(Some(s));
      assert f[1..|f| - 1] == EscapeQuotes(s);
      UnescapeEscapeQuotes(s);
    }
  }
}

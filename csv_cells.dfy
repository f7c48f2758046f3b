/**
 * CSV cell formatting (src/csv_gen.c, `write_csv_value`).
 *
 * A string is quoted and its interior double quotes are doubled, with no
 * other escaping; a number is its `%g` text; a boolean is `true`/`false`;
 * null gives an empty field. An object or array handed to the writer gives
 * an empty field too (the source only prints a warning on stderr).
 */
module CsvCells {
  import opened JsonTree
  import opened Wrappers
  import opened Text

  /** One character of a quoted CSV string: '"' is doubled, every other character kept. */
  function QuoteChar(c: char): string {
    if c == '"' then "\"\"" else [c]
  }

  /** The body of a quoted field. */
  function DoubleQuotes(s: string): string {
    Concat(s, QuoteChar)
  }

  /** The text `write_csv_value` prints for a node. */
  function CsvText(node: Json): string {
    match node
    case String(s) => "\"" + DoubleQuotes(s) + "\""
    case Num(n) => FormatNumber(n)
    case Boolean(b) => if b then "true" else "false"
    case Null => ""
    case _ => ""
  }

  /** Reads back the body of a quoted field: a doubled quote gives one quote, a lone quote is malformed. */
  function UndoubleQuotes(t: string): Option<string>
    decreases |t|
  {
    if t == "" then Some("")
    else if t[0] == '"' then
      if |t| >= 2 && t[1] == '"' then
        match UndoubleQuotes(t[2..])
        case Some(r) => Some("\"" + r)
        case None => None
      else None
    else
      match UndoubleQuotes(t[1..])
      case Some(r) => Some([t[0]] + r)
      case None => None
  }

  /** Reads back a quoted field. */
  function UnquoteField(t: string): Option<string> {
    if |t| >= 2 && t[0] == '"' && t[|t| - 1] == '"' then UndoubleQuotes(t[1..|t| - 1]) else None
  }

  /** Un-doubling recovers the original string. */
  lemma {:induction false} UndoubleRoundTrip(s: string)
    ensures UndoubleQuotes(DoubleQuotes(s)) == Some(s)
    decreases |s|
  {
    if s != "" {
      UndoubleRoundTrip(s[1..]);
      var t := DoubleQuotes(s);
      assert t == QuoteChar(s[0]) + DoubleQuotes(s[1..]);
      if s[0] == '"' {
        assert t[2..] == DoubleQuotes(s[1..]);
      } else {
        assert t[1..] == DoubleQuotes(s[1..]);
      }
      assert s == [s[0]] + s[1..];
    }
  }

  /** A string cell reads back as the string it came from, so distinct strings give distinct cells. */
  lemma StringCellRoundTrip(s: string)
    ensures UnquoteField(CsvText(String(s))) == Some(s)
  {
    var t := CsvText(String(s));
    assert t[1..|t| - 1] == DoubleQuotes(s);
    UndoubleRoundTrip(s);
  }

  /**
   * `write_csv_value`: the quoted string is produced character by character,
   * doubling each interior quote.
   */
  method WriteCsvValue(node: Json) returns (text: string)
    ensures text == CsvText(node)
    ensures node.String? ==> UnquoteField(text) == Some(node.str)
    ensures node.Boolean? ==> text == if node.truth then "true" else "false"
    ensures node.Num? ==> text == FormatNumber(node.num)
    ensures node.Null? || IsContainer(node) ==> text == ""
  {
    match node {
      case String(s) =>
        text := "\"";
        for i := 0 to |s|
          invariant text == "\"" + DoubleQuotes(s[..i])
        {
          ConcatSnoc(s, i, QuoteChar);
          if s[i] == '"' {
            text := text + "\"\"";
          } else {
            text := text + [s[i]];
          }
        }
        assert s[..|s|] == s;
        text := text + "\"";
        StringCellRoundTrip(s);
      case Num(n) =>
        text := FormatNumber(n);
      case Boolean(b) =>
        text := if b then "true" else "false";
      case Null =>
        text := "";
      case _ =>
        text := "";
    }
  }
}

/**
 * The debug printer of the tree (src/ast.c, `print_indent`,
 * `print_string_value`, `print_ast`), producing the text it would write to
 * standard output.
 *
 * Only seven characters are escaped: the quote, the backslash, newline,
 * carriage return, tab, backspace and form feed. Every other character,
 * including the remaining control characters that section 7 of RFC 8259
 * requires to be escaped, is copied as it is.
 */
module AstPrint {
  import opened JsonTree
  import opened Wrappers
  import opened Text

  const Backspace: char := 8 as char
  const FormFeed: char := 12 as char

  /** The output `print_string_value` gives one character. */
  function EscapeChar(c: char): string {
    if c == '"' then "\\\""
    else if c == '\\' then "\\\\"
    else if c == '\n' then "\\n"
    else if c == '\r' then "\\r"
    else if c == '\t' then "\\t"
    else if c == Backspace then "\\b"
    else if c == FormFeed then "\\f"
    else [c]
  }

  function Escape(s: string): string {
    Concat(s, EscapeChar)
  }

  /** A string as `print_string_value` prints it. */
  function Quoted(s: string): string {
    "\"" + Escape(s) + "\""
  }

  /** The character a two-character escape `\x` stands for, if `x` is one of the seven. */
  function UnescapeChar(x: char): Option<char> {
    if x == '"' then Some('"')
    else if x == '\\' then Some('\\')
    else if x == 'n' then Some('\n')
    else if x == 'r' then Some('\r')
    else if x == 't' then Some('\t')
    else if x == 'b' then Some(Backspace)
    else if x == 'f' then Some(FormFeed)
    else None
  }

  /** Decodes the inside of a printed string; a bare quote or an unknown escape is malformed. */
  function Unescape(t: string): Option<string>
    decreases |t|
  {
    if t == "" then Some("")
    else if t[0] == '\\' then
      if |t| >= 2 && UnescapeChar(t[1]).Some? then
        match Unescape(t[2..])
        case Some(r) => Some([UnescapeChar(t[1]).value] + r)
        case None => None
      else None
    else if t[0] == '"' then None
    else
      match Unescape(t[1..])
      case Some(r) => Some([t[0]] + r)
      case None => None
  }

  /** Decoding the escaped text recovers the input. */
  lemma {:induction false} UnescapeRoundTrip(s: string)
    ensures Unescape(Escape(s)) == Some(s)
    decreases |s|
  {
    if s != "" {
      UnescapeRoundTrip(s[1..]);
      var t := Escape(s);
      assert t == EscapeChar(s[0]) + Escape(s[1..]);
      if |EscapeChar(s[0])| == 2 {
        assert t[2..] == Escape(s[1..]);
      } else {
        assert t[1..] == Escape(s[1..]);
      }
      assert s == [s[0]] + s[1..];
    }
  }

  /** Hence different strings always print differently. */
  lemma EscapeInjective(a: string, b: string)
    requires Quoted(a) == Quoted(b)
    ensures a == b
  {
    assert Escape(a) == Quoted(a)[1..|Quoted(a)| - 1];
    assert Escape(b) == Quoted(b)[1..|Quoted(b)| - 1];
    UnescapeRoundTrip(a);
    UnescapeRoundTrip(b);
  }

  /** A control character outside the seven, such as U+0001, is printed raw. */
  lemma ControlCharactersPassThrough()
    ensures Escape([1 as char]) == [1 as char]
  {
    var c := 1 as char;
    assert EscapeChar(c) == [c];
    assert [c][1..] == [];
    assert Concat([c][1..], EscapeChar) == "";
  }

  /**
   * `print_string_value`: the opening quote, then each character escaped
   * or copied, then the closing quote.
   */
  method PrintStringValue(s: string) returns (out: string)
    ensures out == Quoted(s)
    ensures Unescape(out[1..|out| - 1]) == Some(s)
  {
    out := "\"";
    for i := 0 to |s|
      invariant out == "\"" + Escape(s[..i])
    {
      ConcatSnoc(s, i, EscapeChar);
      var c := s[i];
      if c == '"' {
        out := out + "\\\"";
      } else if c == '\\' {
        out := out + "\\\\";
      } else if c == '\n' {
        out := out + "\\n";
      } else if c == '\r' {
        out := out + "\\r";
      } else if c == '\t' {
        out := out + "\\t";
      } else if c == Backspace {
        out := out + "\\b";
      } else if c == FormFeed {
        out := out + "\\f";
      } else {
        out := out + [c];
      }
    }
    assert s[..|s|] == s;
    out := out + "\"";
    assert out[1..|out| - 1] == Escape(s);
    UnescapeRoundTrip(s);
  }

  /** Two spaces per level. */
  function Indent(n: nat): string
    decreases n
  {
    if n == 0 then "" else Indent(n - 1) + "  "
  }

  /** `print_indent`. */
  method PrintIndent(n: nat) returns (out: string)
    ensures out == Indent(n)
    ensures |out| == 2 * n && forall k :: 0 <= k < |out| ==> out[k] == ' '
  {
    out := "";
    for i := 0 to n
      invariant out == Indent(i)
      invariant |out| == 2 * i && forall k :: 0 <= k < |out| ==> out[k] == ' '
    {
      out := out + "  ";
    }
  }

  /** `print_ast`'s output for a node whose first line starts at the cursor and whose closing bracket is at `indent`. */
  function AstText(node: Json, indent: nat): string
    decreases node, 1
  {
    match node
    case Object(ps) => "{\n" + MembersText(ps, |ps|, indent + 1) + Indent(indent) + "}"
    case Array(es) => "[\n" + ElementsText(es, |es|, indent + 1) + Indent(indent) + "]"
    case String(s) => Quoted(s)
    case Num(n) => FormatNumber(n)
    case Boolean(b) => if b then "true" else "false"
    case Null => "null"
  }

  /** One member line, without its comma and newline. */
  function MemberEntry(p: Pair, indent: nat): string
    decreases p, 2
  {
    Indent(indent) + Quoted(p.key) + ": " + AstText(p.value, indent)
  }

  /** The first `n` member lines of an object: a comma after every member but the object's last. */
  function MembersText(ps: seq<Pair>, n: nat, indent: nat): string
    requires n <= |ps|
    decreases ps, n
  {
    if n == 0 then ""
    else
      MembersText(ps, n - 1, indent) + MemberEntry(ps[n - 1], indent)
      + (if n < |ps| then "," else "") + "\n"
  }

  function ElementEntry(e: Json, indent: nat): string
    decreases e, 2
  {
    Indent(indent) + AstText(e, indent)
  }

  /** The first `n` element lines of an array, laid out as the members are. */
  function ElementsText(es: seq<Json>, n: nat, indent: nat): string
    requires n <= |es|
    decreases es, n
  {
    if n == 0 then ""
    else
      ElementsText(es, n - 1, indent) + ElementEntry(es[n - 1], indent)
      + (if n < |es| then "," else "") + "\n"
  }

  /**
   * `print_ast`: an object or array is printed by the loop over its members
   * or elements, then the closing bracket at the node's own level.
   */
  method PrintAst(node: Json, indent: nat) returns (out: string)
    ensures out == AstText(node, indent)
    decreases node, 1
  {
    match node {
      case Object(ps) =>
        var members := PrintMembers(ps, indent + 1);
        var pad := PrintIndent(indent);
        out := "{\n" + members + pad + "}";
      case Array(es) =>
        var elements := PrintElements(es, indent + 1);
        var pad := PrintIndent(indent);
        out := "[\n" + elements + pad + "]";
      case String(s) =>
        out := PrintStringValue(s);
      case Num(n) =>
        out := FormatNumber(n);
      case Boolean(b) =>
        out := if b then "true" else "false";
      case Null =>
        out := "null";
    }
  }

  /** The loop of `print_ast` over an object's members: a comma after each member that has a successor. */
  method PrintMembers(ps: seq<Pair>, indent: nat) returns (out: string)
    ensures out == MembersText(ps, |ps|, indent)
    decreases ps, 0
  {
    out := "";
    var i := 0;
    while i < |ps|
      invariant i <= |ps|
      invariant out == MembersText(ps, i, indent)
    {
      var pad := PrintIndent(indent);
      var key := PrintStringValue(ps[i].key);
      var value := PrintAst(ps[i].value, indent);
      var entry := pad + key + ": " + value;
      assert entry == MemberEntry(ps[i], indent);
      var comma := if i + 1 < |ps| then "," else "";
      assert MembersText(ps, i + 1, indent) == out + entry + comma + "\n";
      out := out + entry + comma + "\n";
      i := i + 1;
    }
  }

  /** The loop of `print_ast` over an array's elements. */
  method PrintElements(es: seq<Json>, indent: nat) returns (out: string)
    ensures out == ElementsText(es, |es|, indent)
    decreases es, 0
  {
    out := "";
    var i := 0;
    while i < |es|
      invariant i <= |es|
      invariant out == ElementsText(es, i, indent)
    {
      var pad := PrintIndent(indent);
      var value := PrintAst(es[i], indent);
      var entry := pad + value;
      assert entry == ElementEntry(es[i], indent);
      var comma := if i + 1 < |es| then "," else "";
      assert ElementsText(es, i + 1, indent) == out + entry + comma + "\n";
      out := out + entry + comma + "\n";
      i := i + 1;
    }
  }

  /** The member lines of an object, as an independent definition: the entries joined by ",\n", then a final newline. */
  function MemberEntries(ps: seq<Pair>, indent: nat): (entries: seq<string>)
    ensures |entries| == |ps|
  {
    seq(|ps|, i requires 0 <= i < |ps| => MemberEntry(ps[i], indent))
  }

  function ElementEntries(es: seq<Json>, indent: nat): (entries: seq<string>)
    ensures |entries| == |es|
  {
    seq(|es|, i requires 0 <= i < |es| => ElementEntry(es[i], indent))
  }

  lemma {:induction false} MembersTextJoined(ps: seq<Pair>, n: nat, indent: nat)
    requires 0 < n <= |ps|
    ensures MembersText(ps, n, indent)
         == Join(MemberEntries(ps, indent)[..n], ",\n") + (if n < |ps| then ",\n" else "\n")
  {
    var entries := MemberEntries(ps, indent);
    if n > 1 {
      MembersTextJoined(ps, n - 1, indent);
      JoinSnoc(entries, ",\n", n - 1);
    } else {
      assert MembersText(ps, 0, indent) == "";
    }
  }

  lemma {:induction false} ElementsTextJoined(es: seq<Json>, n: nat, indent: nat)
    requires 0 < n <= |es|
    ensures ElementsText(es, n, indent)
         == Join(ElementEntries(es, indent)[..n], ",\n") + (if n < |es| then ",\n" else "\n")
  {
    var entries := ElementEntries(es, indent);
    if n > 1 {
      ElementsTextJoined(es, n - 1, indent);
      JoinSnoc(entries, ",\n", n - 1);
    } else {
      assert ElementsText(es, 0, indent) == "";
    }
  }

  /**
   * An object with n members prints as "{", one line per member at one more
   * level, separated by commas with none after the last, and "}" back at the
   * object's own level; an empty object prints "{", a newline and "}".
   */
  lemma ObjectLayout(ps: seq<Pair>, indent: nat)
    ensures |ps| == 0 ==> AstText(Object(ps), indent) == "{\n" + Indent(indent) + "}"
    ensures |ps| > 0 ==>
              AstText(Object(ps), indent)
              == "{\n" + Join(MemberEntries(ps, indent + 1), ",\n") + "\n" + Indent(indent) + "}"
  {
    if |ps| > 0 {
      MembersTextJoined(ps, |ps|, indent + 1);
      assert MemberEntries(ps, indent + 1)[..|ps|] == MemberEntries(ps, indent + 1);
    }
  }

  /** The same layout for an array. */
  lemma ArrayLayout(es: seq<Json>, indent: nat)
    ensures |es| == 0 ==> AstText(Array(es), indent) == "[\n" + Indent(indent) + "]"
    ensures |es| > 0 ==>
              AstText(Array(es), indent)
              == "[\n" + Join(ElementEntries(es, indent + 1), ",\n") + "\n" + Indent(indent) + "]"
  {
    if |es| > 0 {
      ElementsTextJoined(es, |es|, indent + 1);
      assert ElementEntries(es, indent + 1)[..|es|] == ElementEntries(es, indent + 1);
    }
  }
}

/**
 * Table names and output paths (src/csv_gen.c, `safe_filename` and
 * `get_csv_file_path`).
 *
 * Character classes are ASCII: `isalnum` is read as the ASCII letters and
 * digits. One `char` stands for one byte of the C string, so lengths here
 * are byte counts only for single-byte (ASCII) keys and directories.
 */
module Naming {

  predicate IsAlnum(c: char) {
    'a' <= c <= 'z' || 'A' <= c <= 'Z' || '0' <= c <= '9'
  }

  /** The characters `safe_filename` leaves alone. */
  predicate IsNameChar(c: char) {
    IsAlnum(c) || c == '_'
  }

  function SafeChar(c: char): char {
    if IsNameChar(c) then c else '_'
  }

  /** A name made only of letters, digits and underscores, and not empty. */
  predicate IsSafeName(s: string) {
    s != "" && forall i :: 0 <= i < |s| ==> IsNameChar(s[i])
  }

  /** The table name a key gives: `unnamed` for the empty key, otherwise the key with every other character turned into '_'. */
  function SafeName(name: string): string {
    if name == "" then "unnamed" else Sanitized(name)
  }

  /** Every character mapped through `SafeChar`. */
  function Sanitized(s: string): (r: string)
    ensures |r| == |s|
  {
    if s == "" then "" else [SafeChar(s[0])] + Sanitized(s[1..])
  }

  lemma {:induction false} SanitizedAt(s: string)
    ensures forall i :: 0 <= i < |s| ==> Sanitized(s)[i] == SafeChar(s[i])
  {
    if s != "" {
      SanitizedAt(s[1..]);
    }
  }

  /**
   * `safe_filename`: copies the key into a buffer and overwrites, in place,
   * every character that is neither alphanumeric nor '_'.
   */
  method SafeFilename(name: string) returns (r: string)
    ensures r == SafeName(name)
  {
    if name == "" {
      return "unnamed";
    }
    var buf := new char[|name|](i requires 0 <= i < |name| => name[i]);
    for p := 0 to buf.Length
      invariant forall k :: 0 <= k < p ==> buf[k] == SafeChar(name[k])
      invariant forall k :: p <= k < buf.Length ==> buf[k] == name[k]
    {
      if !IsNameChar(buf[p]) {
        buf[p] := '_';
      }
    }
    r := buf[..];
    SanitizedAt(name);
  }

  /**
   * The empty key becomes "unnamed"; any other key keeps its length, its
   * letters, digits and underscores, and has every other character replaced
   * by '_'.
   */
  lemma SafeNameChars(name: string)
    ensures name == "" ==> SafeName(name) == "unnamed"
    ensures name != "" ==> |SafeName(name)| == |name|
    ensures name != "" ==> forall i :: 0 <= i < |name| ==>
      SafeName(name)[i] == if IsNameChar(name[i]) then name[i] else '_'
  {
    SanitizedAt(name);
  }

  /** Every table name is non-empty and made of letters, digits and '_'. */
  lemma SafeNameIsSafe(name: string)
    ensures IsSafeName(SafeName(name))
  {
    SanitizedAt(name);
  }

  /** Names that are already safe are left unchanged, and only those. */
  lemma SafeNameFixedPoints(name: string)
    ensures SafeName(name) == name <==> IsSafeName(name)
  {
    SanitizedAt(name);
    if IsSafeName(name) {
      assert SafeName(name) == name;
    }
    SafeNameIsSafe(name);
  }

  /** Sanitizing twice is the same as sanitizing once. */
  lemma SafeNameIdempotent(name: string)
    ensures SafeName(SafeName(name)) == SafeName(name)
  {
    SafeNameIsSafe(name);
    SafeNameFixedPoints(SafeName(name));
  }

  /** The foreign-key column a table gets for its parent table: `snprintf(..., "%s_id", parent)`. */
  function ForeignKey(parent: string): string {
    parent + "_id"
  }

  /** The length `get_csv_file_path` allocates: both strings, "/", ".csv" and the terminator. */
  function PathBufferLength(dir: string, table: string): nat {
    |dir| + |table| + 6
  }

  /** `get_csv_file_path`: `table.csv` in the current directory, otherwise `dir/table.csv`. */
  function CsvFilePath(dir: string, table: string): (path: string)
    ensures |path| + 1 <= PathBufferLength(dir, table)
    ensures dir != "" && dir != "." ==> |path| + 1 == PathBufferLength(dir, table)
    ensures |path| >= 4 && path[|path| - 4..] == ".csv"
  {
    if dir == "" || dir == "." then table + ".csv" else dir + "/" + table + ".csv"
  }

  /** Within one output directory, different tables never share a file. */
  lemma CsvFilePathInjective(dir: string, a: string, b: string)
    requires CsvFilePath(dir, a) == CsvFilePath(dir, b)
    ensures a == b
  {
    var p := CsvFilePath(dir, a);
    if dir == "" || dir == "." {
      assert a == p[..|p| - 4] == b;
    } else {
      var n := |dir| + 1;
      assert |a| == |b|;
      assert a == p[n..|p| - 4] == b;
    }
  }
}

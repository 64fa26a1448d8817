/**
 * The symbol-file parser (src/cartridge/symbols.rs, and its copy in
 * src/cartridge.rs).  A symbol file is text; comment lines start with `;`;
 * the labels follow a line starting with `[labels]`, one per line as
 * `BANK:ADDR NAME` with BANK and ADDR in hexadecimal.  The parser keeps a
 * map from (bank, address) to name, and a lookup asks for bank 1.
 *
 * Reading the file is left to the caller: the parser is given the text.
 * A malformed label line makes the source panic; the model reports `None`.
 */
module Symbols {
  import opened Wrappers

  /** `Loc(bank, addr)`. */
  datatype Loc = Loc(bank: nat, addr: nat)

  /** The largest `usize` plus one: a 64-bit host. */
  const USIZE_LIMIT: nat := 0x1_0000_0000_0000_0000

  // ---------------------------------------------------------------------
  // Splitting text

  /** The index of the first `c` in `s`, if there is one. */
  function IndexOf(s: string, c: char): (r: Option<nat>)
    ensures r.Some? <==> c in s
    ensures r.Some? ==> r.value < |s| && s[r.value] == c && c !in s[..r.value]
  {
    if s == [] then None
    else if s[0] == c then Some(0)
    else
      match IndexOf(s[1..], c)
      case None => None
      case Some(i) =>
        assert s[..i + 1] == [s[0]] + s[1..][..i];
        Some(i + 1)
  }

  /** `s.split(c)`: the pieces between the separators, empty pieces included. */
  function Split(s: string, c: char): (r: seq<string>)
    ensures |r| >= 1
    ensures forall k :: 0 <= k < |r| ==> c !in r[k]
    decreases |s|
  {
    match IndexOf(s, c)
    case None => [s]
    case Some(i) => [s[..i]] + Split(s[i + 1..], c)
  }

  /** The pieces put back together with the separator between them. */
  function Join(parts: seq<string>, c: char): string
    requires |parts| >= 1
  {
    if |parts| == 1 then parts[0] else parts[0] + [c] + Join(parts[1..], c)
  }

  /** Splitting at a first separator gives the piece before it and the pieces of the rest. */
  lemma SplitAt(x: string, y: string, c: char)
    requires c !in x
    ensures Split(x + [c] + y, c) == [x] + Split(y, c)
  {
    var s := x + [c] + y;
    assert s[..|x|] == x;
    assert s[|x|] == c;
    assert IndexOf(s, c) == Some(|x|);
    assert s[|x| + 1..] == y;
  }

  /** Text without the separator is one piece. */
  lemma SplitNone(x: string, c: char)
    requires c !in x
    ensures Split(x, c) == [x]
  {
  }

  /** Splitting loses nothing: joining the pieces gives the text back. */
  lemma {:induction false} SplitJoin(s: string, c: char)
    ensures Join(Split(s, c), c) == s
    decreases |s|
  {
    var r := IndexOf(s, c);
    if r.Some? {
      var i := r.value;
      var rest := s[i + 1..];
      assert s == s[..i] + [c] + rest;
      SplitAt(s[..i], rest, c);
      var parts := Split(s, c);
      assert parts == [s[..i]] + Split(rest, c);
      assert parts[1..] == Split(rest, c);
      SplitJoin(rest, c);
    }
  }

  function StartsWith(s: string, prefix: string): bool
  {
    |prefix| <= |s| && s[..|prefix|] == prefix
  }

  /** A line without the `\r` of a `\r\n` ending. */
  function StripCr(line: string): (r: string)
    ensures r == line || line == r + ['\r']
  {
    if |line| > 0 && line[|line| - 1] == '\r' then line[..|line| - 1] else line
  }

  /**
   * `str::lines`: the pieces between `\n`s, each without a trailing `\r`;
   * a final line ending does not start another line, and empty text has no
   * lines.
   */
  function Lines(text: string): (r: seq<string>)
    ensures forall k :: 0 <= k < |r| ==> '\n' !in r[k]
  {
    var pieces := Split(text, '\n');
    var whole := if pieces[|pieces| - 1] == "" then pieces[..|pieces| - 1] else pieces;
    seq(|whole|, k requires 0 <= k < |whole| => StripCr(whole[k]))
  }

  // ---------------------------------------------------------------------
  // Hexadecimal numbers

  function HexDigit(c: char): Option<nat>
  {
    if '0' <= c <= '9' then Some(c as int - '0' as int)
    else if 'a' <= c <= 'f' then Some(c as int - 'a' as int + 10)
    else if 'A' <= c <= 'F' then Some(c as int - 'A' as int + 10)
    else None
  }

  /** The value of a string of hex digits, or `None` if one is not a digit. */
  function HexDigits(s: string): (r: Option<nat>)
    ensures r.Some? ==> r.value < Pow16(|s|)
  {
    if s == [] then Some(0)
    else
      var high :- HexDigits(s[..|s| - 1]);
      var low :- HexDigit(s[|s| - 1]);
      Some(16 * high + low)
  }

  function Pow16(n: nat): (r: nat)
    ensures r >= 1
  {
    if n == 0 then 1 else 16 * Pow16(n - 1)
  }

  /**
   * `usize::from_str_radix(s, 16)`: an optional `+`, then at least one hex
   * digit, and a value that fits a `usize`.
   */
  function ParseHex(s: string): (r: Option<nat>)
    ensures r.Some? ==> r.value < USIZE_LIMIT
    ensures r.Some? ==> s != [] && s != "+"
  {
    var digits := if |s| > 0 && s[0] == '+' then s[1..] else s;
    if digits == [] then None
    else
      var v :- HexDigits(digits);
      if v < USIZE_LIMIT then Some(v) else None
  }

  /** The lower-case hex digit for `d`. */
  function DigitChar(d: nat): (c: char)
    requires d < 16
    ensures HexDigit(c) == Some(d)
  {
    if d < 10 then ('0' as int + d) as char else ('a' as int + d - 10) as char
  }

  /** The value written in lower-case hex digits, without leading zeros. */
  function ToHex(v: nat): (s: string)
    ensures |s| >= 1 && ' ' !in s && ':' !in s && s[0] != '+'
    decreases v
  {
    if v < 16 then [DigitChar(v)] else ToHex(v / 16) + [DigitChar(v % 16)]
  }

  /** Hex digits written for a value are read back as that value. */
  lemma {:induction false} ToHexDigits(v: nat)
    ensures HexDigits(ToHex(v)) == Some(v)
    decreases v
  {
    var s := ToHex(v);
    if v >= 16 {
      ToHexDigits(v / 16);
      assert s[..|s| - 1] == ToHex(v / 16);
      assert s[|s| - 1] == DigitChar(v % 16);
    } else {
      assert s[..|s| - 1] == [];
    }
  }

  /** `from_str_radix` reads back every `usize` written in hex. */
  lemma ParseHexRoundTrip(v: nat)
    requires v < USIZE_LIMIT
    ensures ParseHex(ToHex(v)) == Some(v)
  {
    ToHexDigits(v);
  }

  // ---------------------------------------------------------------------
  // Label lines

  /**
   * One label line: `None` where the source panics; `Some(None)` for a line
   * without `:`, which adds nothing; otherwise the (bank, address) from the
   * first space-separated field and the second field as the name.
   */
  function Entry(line: string): Option<Option<(Loc, string)>>
  {
    if ':' !in line then Some(None)
    else
      var parts := Split(line, ' ');
      var locs := Split(parts[0], ':');
      var bank :- ParseHex(locs[0]);
      if |locs| < 2 then None
      else
        var addr :- ParseHex(locs[1]);
        if |parts| < 2 then None
        else Some(Some((Loc(bank, addr), parts[1])))
  }

  /** The line adds the name `name` under `k`. */
  predicate Adds(line: string, k: Loc, name: string)
  {
    Entry(line) == Some(Some((k, name)))
  }

  predicate AddsKey(line: string, k: Loc)
  {
    Entry(line).Some? && Entry(line).value.Some? && Entry(line).value.value.0 == k
  }

  /** Only a line with a `:` adds a label. */
  lemma AddsNeedsColon(line: string, k: Loc)
    requires AddsKey(line, k)
    ensures ':' in line
  {
  }

  /** The line `BANK:ADDR NAME`, written with hex digits, adds `NAME` under (BANK, ADDR). */
  lemma LabelLineAdds(bank: nat, addr: nat, name: string)
    requires bank < USIZE_LIMIT && addr < USIZE_LIMIT && ' ' !in name && ':' !in name
    ensures Adds(ToHex(bank) + ":" + ToHex(addr) + " " + name, Loc(bank, addr), name)
  {
    var b, a := ToHex(bank), ToHex(addr);
    var field := b + [':'] + a;
    var line := field + [' '] + name;
    assert line == ToHex(bank) + ":" + ToHex(addr) + " " + name;
    assert ':' in line by {
      assert line[|b|] == ':';
    }
    assert ' ' !in field;
    SplitAt(field, name, ' ');
    SplitNone(name, ' ');
    SplitAt(b, a, ':');
    SplitNone(a, ':');
    ParseHexRoundTrip(bank);
    ParseHexRoundTrip(addr);
  }

  // ---------------------------------------------------------------------
  // The parser

  /** The lines after the first one that starts with `[labels]`; none if there is no such line. */
  function LabelLines(lines: seq<string>): seq<string>
  {
    if lines == [] then []
    else if StartsWith(lines[0], "[labels]") then lines[1..]
    else LabelLines(lines[1..])
  }

  /** `LabelLines` skips exactly up to and including the first `[labels]` line. */
  lemma {:induction false} LabelLinesSkip(lines: seq<string>)
    ensures (forall i :: 0 <= i < |lines| ==> !StartsWith(lines[i], "[labels]")) ==> LabelLines(lines) == []
    ensures forall i :: (0 <= i < |lines| && StartsWith(lines[i], "[labels]")
      && (forall j :: 0 <= j < i ==> !StartsWith(lines[j], "[labels]"))) ==> LabelLines(lines) == lines[i + 1..]
  {
    if lines != [] {
      LabelLinesSkip(lines[1..]);
      forall i | 0 < i < |lines| && StartsWith(lines[i], "[labels]") && (forall j :: 0 <= j < i ==> !StartsWith(lines[j], "[labels]"))
        ensures LabelLines(lines) == lines[i + 1..]
      {
        assert !StartsWith(lines[0], "[labels]");
        assert StartsWith(lines[1..][i - 1], "[labels]");
        assert forall j :: 0 <= j < i - 1 ==> !StartsWith(lines[1..][j], "[labels]") by {
          forall j | 0 <= j < i - 1 ensures !StartsWith(lines[1..][j], "[labels]") {
            assert lines[1..][j] == lines[j + 1];
          }
        }
        assert lines[1..][i - 1 + 1..] == lines[i + 1..];
      }
      if forall i :: 0 <= i < |lines| ==> !StartsWith(lines[i], "[labels]") {
        assert forall i :: 0 <= i < |lines| - 1 ==> !StartsWith(lines[1..][i], "[labels]") by {
          forall i | 0 <= i < |lines| - 1 ensures !StartsWith(lines[1..][i], "[labels]") {
            assert lines[1..][i] == lines[i + 1];
          }
        }
      }
    }
  }

  /** The lines that do not start with `;`. */
  function NonComments(lines: seq<string>): (r: seq<string>)
    ensures forall k :: 0 <= k < |r| ==> !StartsWith(r[k], ";")
    ensures forall k :: 0 <= k < |r| ==> r[k] in lines
  {
    if lines == [] then []
    else if StartsWith(lines[0], ";") then NonComments(lines[1..])
    else [lines[0]] + NonComments(lines[1..])
  }

  /** The map after the label lines have been inserted in order into `labels`. */
  function Insert(labels: map<Loc, string>, lines: seq<string>): Option<map<Loc, string>>
    decreases |lines|
  {
    if lines == [] then Some(labels)
    else
      if Entry(lines[0]).None? then None
      else Insert(After(labels, lines[0]), lines[1..])
  }

  /** The label lines of a symbol file's text. */
  function LabelLinesOf(text: string): seq<string>
  {
    LabelLines(NonComments(Lines(text)))
  }

  /** `Symbols::new` on the file's text. */
  function Parse(text: string): (r: Option<map<Loc, string>>)
    ensures r.Some? <==> forall i :: 0 <= i < |LabelLinesOf(text)| ==> Entry(LabelLinesOf(text)[i]).Some?
  {
    InsertSucceeds(map[], LabelLinesOf(text));
    Insert(map[], LabelLinesOf(text))
  }

  /** Inserting succeeds iff every label line is well formed. */
  lemma {:induction false} InsertSucceeds(labels: map<Loc, string>, lines: seq<string>)
    ensures Insert(labels, lines).Some? <==> forall i :: 0 <= i < |lines| ==> Entry(lines[i]).Some?
    decreases |lines|
  {
    if lines != [] && Entry(lines[0]).Some? {
      InsertSucceeds(After(labels, lines[0]), lines[1..]);
      assert forall i :: 1 <= i < |lines| ==> lines[i] == lines[1..][i - 1];
    }
  }

  /** The map after one well-formed line. */
  function After(labels: map<Loc, string>, line: string): map<Loc, string>
    requires Entry(line).Some?
  {
    match Entry(line).value
    case None => labels
    case Some(kv) => labels[kv.0 := kv.1]
  }

  /** A key is in the result iff it was there before or some line adds it. */
  lemma {:induction false} InsertKeys(labels: map<Loc, string>, lines: seq<string>, k: Loc)
    requires Insert(labels, lines).Some?
    ensures k in Insert(labels, lines).value <==> k in labels || exists i :: 0 <= i < |lines| && AddsKey(lines[i], k)
    decreases |lines|
  {
    if lines != [] {
      var rest := lines[1..];
      InsertKeys(After(labels, lines[0]), rest, k);
      if exists i :: 0 <= i < |rest| && AddsKey(rest[i], k) {
        var i :| 0 <= i < |rest| && AddsKey(rest[i], k);
        assert AddsKey(lines[i + 1], k);
      }
      if exists i :: 0 <= i < |lines| && AddsKey(lines[i], k) {
        var i :| 0 <= i < |lines| && AddsKey(lines[i], k);
        if i > 0 {
          assert AddsKey(rest[i - 1], k);
        }
      }
    }
  }

  /** A key no line adds keeps its old name. */
  lemma {:induction false} InsertKeeps(labels: map<Loc, string>, lines: seq<string>, k: Loc)
    requires Insert(labels, lines).Some? && k in labels
    requires forall i :: 0 <= i < |lines| ==> !AddsKey(lines[i], k)
    ensures k in Insert(labels, lines).value && Insert(labels, lines).value[k] == labels[k]
    decreases |lines|
  {
    if lines != [] {
      assert !AddsKey(lines[0], k);
      assert forall i :: 1 <= i < |lines| ==> lines[1..][i - 1] == lines[i];
      InsertKeeps(After(labels, lines[0]), lines[1..], k);
    }
  }

  /** A key takes the name of the LAST line that adds it. */
  lemma {:induction false} InsertLastWins(labels: map<Loc, string>, lines: seq<string>, i: nat, k: Loc, name: string)
    requires Insert(labels, lines).Some?
    requires i < |lines| && Adds(lines[i], k, name)
    requires forall j :: i < j < |lines| ==> !AddsKey(lines[j], k)
    ensures k in Insert(labels, lines).value && Insert(labels, lines).value[k] == name
    decreases |lines|
  {
    var rest := lines[1..];
    assert forall j :: 1 <= j < |lines| ==> rest[j - 1] == lines[j];
    if i == 0 {
      InsertKeeps(After(labels, lines[0]), rest, k);
    } else {
      InsertLastWins(After(labels, lines[0]), rest, i - 1, k, name);
    }
  }

  /** A lookup: the name of bank 1's `addr`, the only bank `get` asks for. */
  function Get(labels: map<Loc, string>, addr: nat): (r: Option<string>)
    ensures r.Some? <==> Loc(1, addr) in labels
    ensures r.Some? ==> r.value == labels[Loc(1, addr)]
  {
    if Loc(1, addr) in labels then Some(labels[Loc(1, addr)]) else None
  }

  /**
   * `symbols()` of a cartridge: no symbols when there is no `.sym` file
   * beside the cartridge, otherwise the file's labels.  The outer `None` is
   * a malformed label line, where the source panics.
   */
  function Load(symFile: Option<string>): (r: Option<Option<map<Loc, string>>>)
    ensures symFile.None? ==> r == Some(None)
    ensures symFile.Some? ==> (r.Some? <==> forall i :: 0 <= i < |LabelLinesOf(symFile.value)| ==> Entry(LabelLinesOf(symFile.value)[i]).Some?)
    ensures symFile.Some? && r.Some? ==> r.value.Some? && Some(r.value.value) == Parse(symFile.value)
  {
    match symFile
    case None => Some(None)
    case Some(text) =>
      InsertSucceeds(map[], LabelLinesOf(text));
      match Parse(text)
      case None => None
      case Some(labels) => Some(Some(labels))
  }

  /**
   * `Symbols::new`: the loop over the label lines, inserting each entry into
   * the map; `None` where a malformed line makes the source panic.
   */
  method ParseSymbols(text: string) returns (labels: Option<map<Loc, string>>)
    ensures labels == Parse(text)
  {
    var lines := LabelLinesOf(text);
    var m: map<Loc, string> := map[];
    for i := 0 to |lines|
      invariant Insert(map[], lines) == Insert(m, lines[i..])
    {
      assert lines[i..][1..] == lines[i + 1..];
      var e := Entry(lines[i]);
      if e.None? {
        return None;
      }
      if e.value.Some? {
        m := m[e.value.value.0 := e.value.value.1];
      }
    }
    assert lines[|lines|..] == [];
    labels := Some(m);
  }
}

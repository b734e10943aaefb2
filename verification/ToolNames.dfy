/**
 Names of tools as harnesses spell them, and their normalisation to logical tool names. The set of
 known logical names is a parameter.
 */
module ToolNames {
  import opened Base

  // ---- text ----

  /** The ASCII characters that stripping removes: space, tab to carriage return, and the separators. */
  predicate IsSpace(c: char) { c == ' ' || '\t' <= c <= '\r' || '\U{1C}' <= c <= '\U{1F}' }

  function LowerChar(c: char): char {
    if 'A' <= c <= 'Z' then (c as int + 32) as char else c
  }

  function Lower(s: string): (r: string)
    ensures |r| == |s|
  {
    if s == "" then "" else [LowerChar(s[0])] + Lower(s[1..])
  }

  function StripLeft(s: string): string {
    if s != "" && IsSpace(s[0]) then StripLeft(s[1..]) else s
  }

  function StripRight(s: string): string {
    if s != "" && IsSpace(s[|s| - 1]) then StripRight(s[..|s| - 1]) else s
  }

  function Strip(s: string): string { StripRight(StripLeft(s)) }

  predicate StartsWith(s: string, prefix: string) { prefix <= s }

  predicate Contains(s: string, part: string) {
    part <= s || (s != "" && Contains(s[1..], part))
  }

  /** What follows the last double underscore; everything when there is none. */
  function Bare(s: string): string {
    if |s| < 2 then s
    else if s[|s| - 2..] == "__" then ""
    else Bare(s[..|s| - 1]) + [s[|s| - 1]]
  }

  predicate Stripped(s: string) { s == "" || (!IsSpace(s[0]) && !IsSpace(s[|s| - 1])) }

  lemma {:induction false} StripRightFacts(s: string)
    ensures StripRight(s) == "" || !IsSpace(StripRight(s)[|StripRight(s)| - 1])
    ensures StripRight(s) <= s
  {
    if s != "" && IsSpace(s[|s| - 1]) { StripRightFacts(s[..|s| - 1]); }
  }

  lemma {:induction false} StripLeftFacts(s: string)
    ensures StripLeft(s) == "" || !IsSpace(StripLeft(s)[0])
  {
    if s != "" && IsSpace(s[0]) { StripLeftFacts(s[1..]); }
  }

  lemma StripFacts(s: string)
    ensures Stripped(Strip(s))
    ensures Stripped(s) ==> Strip(s) == s
    ensures Strip(Strip(s)) == Strip(s)
  {
    StripLeftFacts(s);
    StripRightFacts(StripLeft(s));
  }

  predicate NoDouble(s: string) { forall i :: 0 <= i < |s| - 1 ==> s[i] != '_' || s[i + 1] != '_' }

  /** Without a double underscore a name is its own bare part. */
  lemma {:induction false} BareOfPlain(s: string)
    requires NoDouble(s)
    ensures Bare(s) == s
  {
    if |s| >= 2 {
      assert s[|s| - 2] == s[|s| - 2..][0] && s[|s| - 1] == s[|s| - 2..][1];
      BareOfPlain(s[..|s| - 1]);
    }
  }

  /** The bare part of a qualified name. */
  lemma {:induction false} BareOfQualified(prefix: string, s: string)
    requires NoDouble(s) && (s == "" || s[0] != '_')
    ensures Bare(prefix + "__" + s) == s
  {
    var q := prefix + "__" + s;
    if s == "" {
      assert q[|q| - 2..] == "__";
    } else {
      var front := s[..|s| - 1];
      BareOfQualified(prefix, front);
      assert q[..|q| - 1] == prefix + "__" + front;
      assert q[|q| - 1] == s[|s| - 1] == q[|q| - 2..][1];
      assert |s| >= 2 ==> q[|q| - 2..][0] == q[|q| - 2] == s[|s| - 2];
    }
  }

  lemma {:induction false} LowerPlain(s: string)
    requires forall i :: 0 <= i < |s| ==> !('A' <= s[i] <= 'Z')
    ensures Lower(s) == s
  {
    if s != "" { LowerPlain(s[1..]); }
  }

  // ---- logical names ----

  const CODEX_PREFIX := "mcp__saxo_bank_mcp__"
  const CLAUDE_PREFIX := "mcp__plugin_saxo_bank_mcp_saxo_bank_mcp__"
  const STDIO_PREFIX := "mcp__saxo-bank-mcp__"

  function StripKnownPrefix(name: string): Option<string> {
    if StartsWith(name, CODEX_PREFIX) then Some(name[|CODEX_PREFIX|..])
    else if StartsWith(name, CLAUDE_PREFIX) then Some(name[|CLAUDE_PREFIX|..])
    else if StartsWith(name, STDIO_PREFIX) then Some(name[|STDIO_PREFIX|..])
    else None
  }

  /** A harness-qualified name to its logical name; unknown names are refused. */
  function Normalize(known: set<string>, raw: string): Option<string> {
    var name := Strip(raw);
    if name == "" then None
    else if name in known then Some(name)
    else
      var stripped := StripKnownPrefix(name);
      if stripped.Some? then if stripped.value in known then stripped else None
      else if !StartsWith(name, "mcp__") then None
      else if Bare(name) in known && Contains(Lower(name), "saxo") then Some(Bare(name))
      else None
  }

  /** Only known names come out, and a plain known name is its own logical name. */
  lemma NormalizeIsKnown(known: set<string>, raw: string)
    ensures Normalize(known, raw).Some? ==> Normalize(known, raw).value in known
    ensures raw in known && raw != "" && Stripped(raw) ==> Normalize(known, raw) == Some(raw)
  {
    StripFacts(raw);
  }

  /** A plain name that is not known and not qualified is refused. */
  lemma PlainUnknown(known: set<string>, raw: string)
    requires raw !in known && Stripped(raw) && !StartsWith(raw, "mcp__")
    ensures Normalize(known, raw).None?
  {
    StripFacts(raw);
    assert "mcp__" <= CODEX_PREFIX && "mcp__" <= CLAUDE_PREFIX && "mcp__" <= STDIO_PREFIX;
  }

  /** Every spelling a harness gives a known tool normalises back to it. */
  lemma NormalizeQualified(known: set<string>, prefix: string, id: string)
    requires prefix in {CODEX_PREFIX, CLAUDE_PREFIX, STDIO_PREFIX}
    requires id in known && id != "" && Stripped(id) && prefix + id !in known
    ensures Normalize(known, prefix + id) == Some(id)
  {
    StripFacts(prefix + id);
    assert (prefix + id)[0] == 'm';
    assert (prefix + id)[|prefix|..] == id;
    assert prefix <= prefix + id;
    assert (prefix + id)[5] == prefix[5] && (prefix + id)[9] == prefix[9];
    assert CODEX_PREFIX[5] == STDIO_PREFIX[5] == 's' && CLAUDE_PREFIX[5] == 'p';
    assert CODEX_PREFIX[9] == '_' && STDIO_PREFIX[9] == '-';
  }
}

/** lead_engine/db_pg.py, `_translate_placeholders`: the quote-aware rewriting of ? markers to %s.
    The scanner jumps over quoted runs, looking ahead for the doubled quotes that escape a quote; its
    meaning is a three-state automaton that never looks ahead. */
module Placeholders {

  datatype Mode = Plain | InLiteral | InName

  function Next(mode: Mode, ch: char): Mode {
    match mode
    case Plain => if ch == '\'' then InLiteral else if ch == '"' then InName else Plain
    case InLiteral => if ch == '\'' then Plain else InLiteral
    case InName => if ch == '"' then Plain else InName
  }

  predicate IsMarker(mode: Mode, ch: char) {
    mode == Plain && ch == '?'
  }

  function Emit(mode: Mode, ch: char): string {
    if IsMarker(mode, ch) then "%s" else [ch]
  }

  function Rewrite(mode: Mode, s: string): string
    decreases s
  {
    if s == [] then [] else Emit(mode, s[0]) + Rewrite(Next(mode, s[0]), s[1..])
  }

  function ModeAfter(mode: Mode, s: string): Mode
    decreases s
  {
    if s == [] then mode else ModeAfter(Next(mode, s[0]), s[1..])
  }

  function Markers(mode: Mode, s: string): nat
    decreases s
  {
    if s == [] then 0 else (if IsMarker(mode, s[0]) then 1 else 0) + Markers(Next(mode, s[0]), s[1..])
  }

  // ---------------------------------------------------------------- the scanner

  function Quote(mode: Mode): char {
    if mode == InLiteral then '\'' else '"'
  }

  /** The automaton has read s[..i] and is in `mode`. */
  predicate At(s: string, i: nat, mode: Mode) {
    i <= |s| && ModeAfter(Plain, s[..i]) == mode
  }

  /** One character further. */
  lemma OneFurther(s: string, i: nat, mode: Mode)
    requires At(s, i, mode) && i < |s|
    ensures At(s, i + 1, Next(mode, s[i]))
    ensures Rewrite(Plain, s[..i + 1]) == Rewrite(Plain, s[..i]) + Emit(mode, s[i])
  {
    assert s[..i + 1] == s[..i] + [s[i]];
    RewriteOfConcat(Plain, s[..i], [s[i]]);
  }

  /** s[i..j] goes through as it stands. */
  ghost predicate Copied(s: string, i: nat, j: nat) {
    i <= j <= |s| && Rewrite(Plain, s[..j]) == Rewrite(Plain, s[..i]) + s[i..j]
  }

  lemma CopyOne(s: string, i: nat, j: nat, mode: Mode)
    requires Copied(s, i, j) && At(s, j, mode) && j < |s| && !IsMarker(mode, s[j])
    ensures Copied(s, i, j + 1) && At(s, j + 1, Next(mode, s[j]))
  {
    OneFurther(s, j, mode);
    assert s[i..j + 1] == s[i..j] + [s[j]];
  }

  /** The inner loop: from the opening quote at `i` to its closing quote, or to the end. */
  method FindClosing(sql: string, i: nat, mode: Mode) returns (j: nat)
    requires mode != Plain && At(sql, i, Plain) && i < |sql| && sql[i] == Quote(mode)
    ensures i < j <= |sql|
    ensures j < |sql| ==> Copied(sql, i, j + 1) && At(sql, j + 1, Plain)
    ensures j == |sql| ==> Copied(sql, i, j)
  {
    CopyOne(sql, i, i, Plain);
    j := i + 1;
    while j < |sql|
      invariant i < j <= |sql|
      invariant Copied(sql, i, j) && At(sql, j, mode)
    {
      CopyOne(sql, i, j, mode);
      if sql[j] == Quote(mode) {
        if j + 1 < |sql| && sql[j + 1] == Quote(mode) {
          CopyOne(sql, i, j + 1, Plain);
          j := j + 2;
          continue;
        }
        break;
      }
      j := j + 1;
    }
  }

  /** The index-jumping scanner computes the automaton's output for every string, terminated or not. */
  method TranslatePlaceholders(sql: string) returns (out: string)
    ensures out == Rewrite(Plain, sql)
  {
    out := [];
    var i, n := 0, |sql|;
    while i < n
      invariant 0 <= i <= n + 1
      invariant i <= n ==> out == Rewrite(Plain, sql[..i])
      invariant i > n ==> out == Rewrite(Plain, sql[..n])
      invariant i < n ==> At(sql, i, Plain)
    {
      var ch := sql[i];
      if ch == '\'' {
        var j := FindClosing(sql, i, InLiteral);
        out := out + sql[i..if j + 1 <= n then j + 1 else n];
        i := j + 1;
      } else if ch == '"' {
        var j := FindClosing(sql, i, InName);
        out := out + sql[i..if j + 1 <= n then j + 1 else n];
        i := j + 1;
      } else {
        OneFurther(sql, i, Plain);
        if ch == '?' {
          out := out + "%s";
        } else {
          out := out + [ch];
        }
        i := i + 1;
      }
    }
    assert sql[..n] == sql;
  }

  // ---------------------------------------------------------------- what the rewriting means

  lemma {:induction false} RewriteOfConcat(mode: Mode, a: string, b: string)
    ensures Rewrite(mode, a + b) == Rewrite(mode, a) + Rewrite(ModeAfter(mode, a), b)
    ensures ModeAfter(mode, a + b) == ModeAfter(ModeAfter(mode, a), b)
    ensures Markers(mode, a + b) == Markers(mode, a) + Markers(ModeAfter(mode, a), b)
    decreases a
  {
    if a == [] {
      assert a + b == b;
    } else {
      assert (a + b)[1..] == a[1..] + b;
      RewriteOfConcat(Next(mode, a[0]), a[1..], b);
    }
  }

  lemma {:induction false} RewriteKeepsQuoting(mode: Mode, s: string)
    ensures ModeAfter(mode, Rewrite(mode, s)) == ModeAfter(mode, s)
    ensures Markers(mode, Rewrite(mode, s)) == 0
    ensures |Rewrite(mode, s)| == |s| + Markers(mode, s)
    decreases s
  {
    if s != [] {
      var rest := Rewrite(Next(mode, s[0]), s[1..]);
      RewriteKeepsQuoting(Next(mode, s[0]), s[1..]);
      RewriteOfConcat(mode, Emit(mode, s[0]), rest);
      EmitIsQuiet(mode, s[0]);
    }
  }

  lemma EmitIsQuiet(mode: Mode, ch: char)
    ensures ModeAfter(mode, Emit(mode, ch)) == Next(mode, ch) && Markers(mode, Emit(mode, ch)) == 0
    ensures Rewrite(mode, Emit(mode, ch)) == Emit(mode, ch)
  {
    if IsMarker(mode, ch) {
      assert "%s" == ['%'] + ['s'];
      RewriteOfConcat(mode, ['%'], ['s']);
    }
  }

  /** Rewriting what is already rewritten changes nothing. */
  lemma {:induction false} RewriteIsIdempotent(mode: Mode, s: string)
    ensures Rewrite(mode, Rewrite(mode, s)) == Rewrite(mode, s)
    decreases s
  {
    if s != [] {
      var rest := Rewrite(Next(mode, s[0]), s[1..]);
      RewriteIsIdempotent(Next(mode, s[0]), s[1..]);
      EmitIsQuiet(mode, s[0]);
      RewriteOfConcat(mode, Emit(mode, s[0]), rest);
    }
  }

  /** Every character, where it stands: the output is what comes before it rewritten, then %s if it is
      an unquoted ? and the character itself otherwise, then the rest. */
  lemma EachCharacter(s: string, i: nat)
    requires i < |s|
    ensures var mode := ModeAfter(Plain, s[..i]);
            Rewrite(Plain, s) == Rewrite(Plain, s[..i])
                                 + (if mode == Plain && s[i] == '?' then "%s" else [s[i]])
                                 + Rewrite(Next(mode, s[i]), s[i + 1..])
  {
    assert s == s[..i + 1] + s[i + 1..];
    RewriteOfConcat(Plain, s[..i + 1], s[i + 1..]);
    OneFurther(s, i, ModeAfter(Plain, s[..i]));
  }

  /** Statements may be rewritten piece by piece exactly at the cuts that are outside quotes. */
  lemma PiecewiseIff(a: string)
    ensures ModeAfter(Plain, a) == Plain <==>
            forall b :: Rewrite(Plain, a + b) == Rewrite(Plain, a) + Rewrite(Plain, b)
  {
    forall b ensures ModeAfter(Plain, a) == Plain ==> Rewrite(Plain, a + b) == Rewrite(Plain, a) + Rewrite(Plain, b) {
      RewriteOfConcat(Plain, a, b);
    }
    RewriteOfConcat(Plain, a, "?");
    if ModeAfter(Plain, a) != Plain {
      assert Rewrite(ModeAfter(Plain, a), "?") == "?" && Rewrite(Plain, "?") == "%s";
      assert Rewrite(Plain, a + "?") != Rewrite(Plain, a) + Rewrite(Plain, "?");
    }
  }

  // ---------------------------------------------------------------- literals and delimited identifiers

  /** `text` written between quotes, its own quotes doubled. */
  function Doubled(quote: char, text: string): string {
    if text == [] then [] else (if text[0] == quote then [quote, quote] else [text[0]]) + Doubled(quote, text[1..])
  }

  lemma {:induction false} DoubledIsCopied(mode: Mode, text: string)
    requires mode != Plain
    ensures Rewrite(mode, Doubled(Quote(mode), text)) == Doubled(Quote(mode), text)
    ensures ModeAfter(mode, Doubled(Quote(mode), text)) == mode
  {
    if text != [] {
      var q := Quote(mode);
      var head := if text[0] == q then [q, q] else [text[0]];
      DoubledIsCopied(mode, text[1..]);
      RewriteOfConcat(mode, head, Doubled(q, text[1..]));
      if text[0] == q {
        assert head == [q] + [q];
        RewriteOfConcat(mode, [q], [q]);
      }
    }
  }

  /** A string literal or delimited identifier, with any text inside, comes through verbatim wherever
      it is put, and what follows it is rewritten as if it were not there. */
  lemma QuotedTextIsVerbatim(before: string, mode: Mode, text: string, behind: string)
    requires mode != Plain && ModeAfter(Plain, before) == Plain
    ensures var quoted := [Quote(mode)] + Doubled(Quote(mode), text) + [Quote(mode)];
            Rewrite(Plain, before + quoted + behind) == Rewrite(Plain, before) + quoted + Rewrite(Plain, behind)
  {
    var q := Quote(mode);
    var inner := Doubled(q, text);
    var quoted := [q] + inner + [q];
    DoubledIsCopied(mode, text);
    RewriteOfConcat(Plain, [q], inner);
    RewriteOfConcat(Plain, [q] + inner, [q]);
    RewriteOfConcat(Plain, before, quoted);
    RewriteOfConcat(Plain, before + quoted, behind);
  }
}

/** `memory_list`: the escaped prefix pattern and what SQLite's LIKE makes of it. */
module LikePrefix {
  import opened Wrappers
  import opened Ascii
  import opened Sqlite

  /** Python's `s.replace(c, r)` for a single character `c`. */
  function Replace(s: string, c: char, r: string): string {
    if s == "" then "" else (if s[0] == c then r else [s[0]]) + Replace(s[1..], c, r)
  }

  /** The three whole-string replacements, in the order the server makes them. */
  function Escape(prefix: string): string {
    Replace(Replace(Replace(prefix, '\\', "\\\\"), '%', "\\%"), '_', "\\_")
  }

  predicate Special(c: char) { c == '\\' || c == '%' || c == '_' }

  function EscapeChar(c: char): string {
    if Special(c) then ['\\', c] else [c]
  }

  function EscapeOnce(prefix: string): string {
    if prefix == "" then "" else EscapeChar(prefix[0]) + EscapeOnce(prefix[1..])
  }

  lemma {:induction false} ReplaceConcat(a: string, b: string, c: char, r: string)
    ensures Replace(a + b, c, r) == Replace(a, c, r) + Replace(b, c, r)
  {
    if a == "" {
      assert a + b == b;
    } else {
      assert (a + b)[1..] == a[1..] + b;
      ReplaceConcat(a[1..], b, c, r);
    }
  }

  lemma ReplaceOne(x: char, c: char, r: string)
    ensures Replace([x], c, r) == if x == c then r else [x]
  {
    assert [x][1..] == "";
  }

  lemma ReplaceTwo(x: char, y: char, c: char, r: string)
    ensures Replace([x, y], c, r) == (if x == c then r else [x]) + (if y == c then r else [y])
  {
    assert [x, y] == [x] + [y];
    ReplaceConcat([x], [y], c, r);
    ReplaceOne(x, c, r);
    ReplaceOne(y, c, r);
  }

  lemma EscapeOfChar(c: char)
    ensures Escape([c]) == EscapeChar(c)
  {
    ReplaceOne(c, '\\', "\\\\");
    if c == '\\' {
      ReplaceTwo('\\', '\\', '%', "\\%");
      ReplaceTwo('\\', '\\', '_', "\\_");
    } else {
      ReplaceOne(c, '%', "\\%");
      ReplaceTwo('\\', '%', '_', "\\_");
      ReplaceOne(c, '_', "\\_");
    }
  }

  /** The three replacements in sequence are one escape per character: none disturbs another's output. */
  lemma {:induction false} EscapeIsOnePass(prefix: string)
    ensures Escape(prefix) == EscapeOnce(prefix)
  {
    if prefix != "" {
      var a, b := [prefix[0]], prefix[1..];
      assert prefix == a + b;
      ReplaceConcat(a, b, '\\', "\\\\");
      var a1, b1 := Replace(a, '\\', "\\\\"), Replace(b, '\\', "\\\\");
      ReplaceConcat(a1, b1, '%', "\\%");
      ReplaceConcat(Replace(a1, '%', "\\%"), Replace(b1, '%', "\\%"), '_', "\\_");
      EscapeOfChar(prefix[0]);
      EscapeIsOnePass(b);
    }
  }

  /** Whether SQLite's LIKE, with the backslash as escape character, matches `s`; it folds the case of ASCII letters only. */
  predicate Like(pattern: string, s: string)
    decreases |pattern| + |s|
  {
    if pattern == "" then s == ""
    else if pattern[0] == '%' then Like(pattern[1..], s) || (s != "" && Like(pattern, s[1..]))
    else if pattern[0] == '_' then s != "" && Like(pattern[1..], s[1..])
    else if pattern[0] == '\\' then
      |pattern| > 1 && s != "" && Fold(pattern[1]) == Fold(s[0]) && Like(pattern[2..], s[1..])
    else s != "" && Fold(pattern[0]) == Fold(s[0]) && Like(pattern[1..], s[1..])
  }

  /** Why the prefix is escaped: left as it is, an underscore or a percent sign would list other keys too. */
  lemma UnescapedListsMore()
    ensures Like("a_" + "%", "abc") && !FoldedPrefix("a_", "abc")
    ensures Like("a%" + "%", "abc") && !FoldedPrefix("a%", "abc")
    ensures !Like(Escape("a_") + "%", "abc") && Like(Escape("a_") + "%", "a_c")
  {
    var a: string, b: string := "a_" + "%", "a%" + "%";
    assert a[1..] == "_%" && a[1..][1..] == "%" && "abc"[1..] == "bc" && "bc"[1..] == "c";
    assert b[1..] == "%%" && "%%"[1..] == "%";
    PercentMatchesAll("c");
    PercentMatchesAll("bc");
    assert Like("_%", "bc");
    assert Like("%%", "bc");
    EscapeIsOnePass("a_");
    OnePassIsExact("a_", "abc");
    OnePassIsExact("a_", "a_c");
  }

  /** `prefix` starts `key`, up to the case of ASCII letters. */
  predicate FoldedPrefix(prefix: string, key: string) {
    |prefix| <= |key| && forall i | 0 <= i < |prefix| :: Fold(prefix[i]) == Fold(key[i])
  }

  lemma {:induction false} PercentMatchesAll(s: string)
    ensures Like("%", s)
  {
    assert "%"[1..] == "";
    if s != "" {
      PercentMatchesAll(s[1..]);
    }
  }

  lemma {:induction false} OnePassIsExact(prefix: string, key: string)
    ensures Like(EscapeOnce(prefix) + "%", key) <==> FoldedPrefix(prefix, key)
  {
    var pattern := EscapeOnce(prefix) + "%";
    if prefix == "" {
      assert pattern == "%";
      PercentMatchesAll(key);
    } else {
      var rest := EscapeOnce(prefix[1..]) + "%";
      assert pattern == EscapeChar(prefix[0]) + rest;
      if Special(prefix[0]) {
        assert pattern[0] == '\\' && pattern[1] == prefix[0] && pattern[2..] == rest;
      } else {
        assert pattern[0] == prefix[0] && pattern[1..] == rest;
      }
      if key != "" {
        OnePassIsExact(prefix[1..], key[1..]);
        FoldedPrefixStep(prefix, key);
      }
    }
  }

  lemma FoldedPrefixStep(prefix: string, key: string)
    requires prefix != "" && key != ""
    ensures FoldedPrefix(prefix, key) <==> Fold(prefix[0]) == Fold(key[0]) && FoldedPrefix(prefix[1..], key[1..])
  {
    if Fold(prefix[0]) == Fold(key[0]) && FoldedPrefix(prefix[1..], key[1..]) {
      forall i | 0 <= i < |prefix|
        ensures Fold(prefix[i]) == Fold(key[i])
      {
        if i > 0 {
          assert prefix[i] == prefix[1..][i - 1] && key[i] == key[1..][i - 1];
        }
      }
    }
    if FoldedPrefix(prefix, key) {
      forall i | 0 <= i < |prefix[1..]|
        ensures Fold(prefix[1..][i]) == Fold(key[1..][i])
      {
        assert prefix[1..][i] == prefix[i + 1] && key[1..][i] == key[i + 1];
      }
    }
  }

  /** The keys `memory_list` shows for a prefix. */
  function ListKeys(facts: map<string, Fact>, prefix: string): set<string> {
    set k | k in facts && Like(Escape(prefix) + "%", k)
  }

  /** `memory_list` shows exactly the keys that start with the prefix, up to the case of ASCII letters. */
  lemma ListIsThePrefixMatch(facts: map<string, Fact>, prefix: string)
    ensures ListKeys(facts, prefix) == set k | k in facts && FoldedPrefix(prefix, k)
  {
    EscapeIsOnePass(prefix);
    forall k | k in facts
      ensures Like(Escape(prefix) + "%", k) <==> FoldedPrefix(prefix, k)
    {
      OnePassIsExact(prefix, k);
    }
  }

  function SwapCase(c: char): char {
    if IsLower(c) then (c as int - 32) as char else Fold(c)
  }

  /**
   The documented promise, keys that start with the prefix, holds for every store exactly for
   the prefixes without ASCII letters: any other prefix also lists the key with a letter's case changed.
   */
  lemma LiteralPrefixIff(prefix: string)
    ensures (forall facts: map<string, Fact> :: ListKeys(facts, prefix) == set k | k in facts && IsPrefix(prefix, k))
       <==> forall i | 0 <= i < |prefix| :: !IsLetter(prefix[i])
  {
    if i :| 0 <= i < |prefix| && IsLetter(prefix[i]) {
      var other := prefix[i := SwapCase(prefix[i])];
      var facts := map[other := Fact("", "", "")];
      ListIsThePrefixMatch(facts, prefix);
      assert other[i] != prefix[i] && FoldedPrefix(prefix, other) && !IsPrefix(prefix, other);
      assert other in ListKeys(facts, prefix);
    } else {
      forall facts: map<string, Fact>
        ensures ListKeys(facts, prefix) == set k | k in facts && IsPrefix(prefix, k)
      {
        ListIsThePrefixMatch(facts, prefix);
        forall k | k in facts
          ensures FoldedPrefix(prefix, k) <==> IsPrefix(prefix, k)
        {
          UnfoldedPrefix(prefix, k);
        }
      }
    }
  }

  lemma UnfoldedPrefix(prefix: string, key: string)
    requires forall i | 0 <= i < |prefix| :: !IsLetter(prefix[i])
    ensures FoldedPrefix(prefix, key) <==> IsPrefix(prefix, key)
  {
    if FoldedPrefix(prefix, key) {
      forall i | 0 <= i < |prefix|
        ensures key[..|prefix|][i] == prefix[i]
      {
        assert Fold(prefix[i]) == Fold(key[i]) && !IsLetter(prefix[i]);
      }
    }
    if IsPrefix(prefix, key) {
      forall i | 0 <= i < |prefix|
        ensures Fold(prefix[i]) == Fold(key[i])
      {
        assert key[..|prefix|][i] == key[i];
      }
    }
  }
}

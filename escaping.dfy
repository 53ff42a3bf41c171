/**
 * Tag-identifier slash escaping. The historian uses '/' as its own escape
 * character, so the client doubles every '/' in the ids it sends
 * (`str.replace('/', '//')`), and every query collapses the stored tag name
 * back with the SQL Server call `REPLACE(tagname, '//', '/')`.
 */
module Escaping {

  const SLASH: char := '/'

  /** The separator `";".join(...)` puts between ids in a batched query. */
  const SEPARATOR: char := ';'

  /** Python's `s.replace('/', '//')`. */
  function Escape(s: string): string
  {
    if s == [] then []
    else (if s[0] == SLASH then [SLASH, SLASH] else [s[0]]) + Escape(s[1..])
  }

  /**
   * SQL Server's `REPLACE(s, '//', '/')`: one left-to-right scan that
   * replaces non-overlapping occurrences, so "///" becomes "//".
   */
  function Collapse(s: string): (r: string)
    ensures |r| <= |s|
  {
    if |s| >= 2 && s[0] == SLASH && s[1] == SLASH then [SLASH] + Collapse(s[2..])
    else if s == [] then []
    else [s[0]] + Collapse(s[1..])
  }

  /** Number of '/' characters in `s`. */
  function SlashCount(s: string): nat
  {
    if s == [] then 0 else (if s[0] == SLASH then 1 else 0) + SlashCount(s[1..])
  }

  /** `s` with every '/' removed: the characters escaping must leave alone. */
  function WithoutSlashes(s: string): string
  {
    if s == [] then [] else (if s[0] == SLASH then [] else [s[0]]) + WithoutSlashes(s[1..])
  }

  /** Python's `sep.join(ids)`. */
  function Join(ids: seq<string>, sep: char): string
  {
    if ids == [] then []
    else if |ids| == 1 then ids[0]
    else ids[0] + [sep] + Join(ids[1..], sep)
  }

  /** The list comprehension that escapes every id of a batched request. */
  function EscapeEach(ids: seq<string>): (r: seq<string>)
    ensures |r| == |ids|
    ensures forall i :: 0 <= i < |ids| ==> r[i] == Escape(ids[i])
  {
    if ids == [] then [] else [Escape(ids[0])] + EscapeEach(ids[1..])
  }

  /** The id a single-tag operation sends, given its `escape_slashes` flag. */
  function PrepareId(id: string, escape: bool): string
  {
    if escape then Escape(id) else id
  }

  /**
   * The id list a batched operation sends: each id escaped when the flag is
   * set, then `';'`-joined. Escaping each id and then joining is the same as
   * escaping the joined string, because the separator is not a slash.
   */
  function PrepareIds(ids: seq<string>, escape: bool): (r: string)
    ensures r == PrepareId(Join(ids, SEPARATOR), escape)
    ensures !escape ==> r == Join(ids, SEPARATOR)
  {
    if escape then
      EscapeJoin(ids, SEPARATOR);
      Join(EscapeEach(ids), SEPARATOR)
    else Join(ids, SEPARATOR)
  }

  /** Escaping is done character by character, so it distributes over `+`. */
  lemma {:induction false} EscapeAppend(a: string, b: string)
    ensures Escape(a + b) == Escape(a) + Escape(b)
  {
    if a != [] {
      assert (a + b)[0] == a[0];
      assert (a + b)[1..] == a[1..] + b;
      EscapeAppend(a[1..], b);
    } else {
      assert a + b == b;
    }
  }

  /** Escaping the ids one by one and joining them escapes the joined string. */
  lemma {:induction false} EscapeJoin(ids: seq<string>, sep: char)
    requires sep != SLASH
    ensures Join(EscapeEach(ids), sep) == Escape(Join(ids, sep))
  {
    if |ids| > 1 {
      var e := EscapeEach(ids);
      assert e[1..] == EscapeEach(ids[1..]);
      EscapeJoin(ids[1..], sep);
      EscapeAppend(ids[0], [sep] + Join(ids[1..], sep));
      EscapeAppend([sep], Join(ids[1..], sep));
      assert Escape([sep]) == [sep];
      assert ids[0] + [sep] + Join(ids[1..], sep) == ids[0] + ([sep] + Join(ids[1..], sep));
    }
  }

  /** Collapsing after escaping gives the original id back, for every string. */
  lemma {:induction false} CollapseEscape(s: string)
    ensures Collapse(Escape(s)) == s
  {
    if s != [] {
      var rest := Escape(s[1..]);
      CollapseEscape(s[1..]);
      if s[0] == SLASH {
        assert Escape(s) == [SLASH, SLASH] + rest;
        assert ([SLASH, SLASH] + rest)[2..] == rest;
      } else {
        assert Escape(s) == [s[0]] + rest;
        assert ([s[0]] + rest)[1..] == rest;
      }
      assert s == [s[0]] + s[1..];
    }
  }

  /** Hence two ids that escape to the same string are the same id. */
  lemma EscapeInjective(a: string, b: string)
    requires Escape(a) == Escape(b)
    ensures a == b
  {
    CollapseEscape(a);
    CollapseEscape(b);
  }

  /** Escaping leaves every character other than '/' where it was, in order. */
  lemma {:induction false} EscapeKeepsOtherCharacters(s: string)
    ensures WithoutSlashes(Escape(s)) == WithoutSlashes(s)
  {
    if s != [] {
      var head := if s[0] == SLASH then [SLASH, SLASH] else [s[0]];
      EscapeKeepsOtherCharacters(s[1..]);
      WithoutSlashesAppend(head, Escape(s[1..]));
      if s[0] == SLASH {
        assert WithoutSlashes(head) == [] by {
          assert head[1..] == [SLASH];
          assert WithoutSlashes([SLASH]) == [];
        }
      }
    }
  }

  /** Escaping turns every '/' into exactly two. */
  lemma {:induction false} EscapeDoublesSlashes(s: string)
    ensures SlashCount(Escape(s)) == 2 * SlashCount(s)
    ensures |Escape(s)| == |s| + SlashCount(s)
  {
    if s != [] {
      var head := if s[0] == SLASH then [SLASH, SLASH] else [s[0]];
      EscapeDoublesSlashes(s[1..]);
      SlashCountAppend(head, Escape(s[1..]));
      if s[0] == SLASH {
        assert head[1..] == [SLASH];
        assert SlashCount([SLASH]) == 1;
      }
    }
  }

  /** An id is sent unchanged by escaping exactly when it has no '/'. */
  lemma EscapeUnchanged(s: string)
    ensures Escape(s) == s <==> SLASH !in s
  {
    EscapeDoublesSlashes(s);
    SlashCountZero(s);
  }

  lemma {:induction false} SlashCountZero(s: string)
    ensures SlashCount(s) == 0 <==> SLASH !in s
  {
    if s != [] {
      SlashCountZero(s[1..]);
      assert SLASH in s <==> s[0] == SLASH || SLASH in s[1..] by {
        assert s == [s[0]] + s[1..];
      }
    }
  }

  lemma {:induction false} SlashCountAppend(a: string, b: string)
    ensures SlashCount(a + b) == SlashCount(a) + SlashCount(b)
  {
    if a != [] {
      assert (a + b)[0] == a[0];
      assert (a + b)[1..] == a[1..] + b;
      SlashCountAppend(a[1..], b);
    } else {
      assert a + b == b;
    }
  }

  lemma {:induction false} WithoutSlashesAppend(a: string, b: string)
    ensures WithoutSlashes(a + b) == WithoutSlashes(a) + WithoutSlashes(b)
  {
    if a != [] {
      assert (a + b)[0] == a[0];
      assert (a + b)[1..] == a[1..] + b;
      WithoutSlashesAppend(a[1..], b);
    } else {
      assert a + b == b;
    }
  }
}

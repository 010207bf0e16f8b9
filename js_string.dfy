/** The JavaScript string operations the source relies on:
    `String.prototype.includes`, `indexOf`, `split` on a one-character separator
    and `replace` with a string pattern (first occurrence only, with the
    `$`-patterns of the replacement string interpreted). */
module JsString {
  import opened Common

  /** `p` occurs in `s` starting at index `i`. */
  ghost predicate OccursAt(s: string, p: string, i: int)
  {
    0 <= i && i + |p| <= |s| && s[i..i + |p|] == p
  }

  predicate StartsWith(s: string, p: string)
  {
    |p| <= |s| && s[..|p|] == p
  }

  /** `s.indexOf(p)`: the first index at which `p` occurs, if any. */
  function IndexOf(s: string, p: string): (r: Option<nat>)
    ensures r.Some? ==> OccursAt(s, p, r.value)
    ensures r.Some? ==> forall j :: 0 <= j < r.value ==> !OccursAt(s, p, j)
    ensures r.None? ==> forall j :: !OccursAt(s, p, j)
    decreases |s|
  {
    if StartsWith(s, p) then
      assert s[0..|p|] == s[..|p|];
      Some(0)
    else if |s| == 0 then
      None
    else
      var rest := IndexOf(s[1..], p);
      OccursShift(s, p);
      assert |p| <= |s| ==> s[..|p|] == s[0..|p|];
      match rest
      case None => None
      case Some(k) => Some(k + 1)
  }

  /** An occurrence past the first character is an occurrence in the tail. */
  lemma OccursShift(s: string, p: string)
    requires |s| > 0
    ensures forall j {:trigger OccursAt(s, p, j)} :: 1 <= j ==> (OccursAt(s, p, j) <==> OccursAt(s[1..], p, j - 1))
  {
    forall j | 1 <= j
      ensures OccursAt(s, p, j) <==> OccursAt(s[1..], p, j - 1)
    {
      if j + |p| <= |s| {
        assert s[1..][j - 1..j - 1 + |p|] == s[j..j + |p|];
      }
    }
  }

  /** `s.includes(p)`. */
  predicate Includes(s: string, p: string)
  {
    IndexOf(s, p).Some?
  }

  /** `includes` holds exactly when the pattern occurs somewhere. */
  lemma IncludesIff(s: string, p: string)
    ensures Includes(s, p) <==> exists i :: OccursAt(s, p, i)
  {
  }

  /** A witness occurrence proves `includes`. */
  lemma IncludesAt(s: string, p: string, i: int)
    requires OccursAt(s, p, i)
    ensures Includes(s, p)
  {
  }

  /** A pattern placed between two strings is included in the result. */
  lemma IncludesBetween(pre: string, p: string, post: string)
    ensures Includes(pre + p + post, p)
  {
    var s := pre + p + post;
    assert s[|pre|..|pre| + |p|] == p;
    IncludesAt(s, p, |pre|);
  }

  /** A pattern longer than the string does not occur in it. */
  lemma LongerNotIncluded(s: string, p: string)
    requires |p| > |s|
    ensures !Includes(s, p)
  {
  }

  /** `s.split(sep)` for a one-character separator. The empty string splits
      into one empty piece, as in JavaScript. */
  function Split(s: string, sep: char): (r: seq<string>)
    ensures |r| >= 1
    ensures forall k :: 0 <= k < |r| ==> sep !in r[k]
    decreases |s|
  {
    if |s| == 0 then [""]
    else if s[0] == sep then [""] + Split(s[1..], sep)
    else
      var rest := Split(s[1..], sep);
      [[s[0]] + rest[0]] + rest[1..]
  }

  /** `parts.join(sep)`. */
  function Join(parts: seq<string>, sep: char): string
    decreases |parts|
  {
    if |parts| == 0 then ""
    else if |parts| == 1 then parts[0]
    else parts[0] + [sep] + Join(parts[1..], sep)
  }

  /** Splitting loses nothing: joining the pieces gives back the string. */
  lemma {:induction false} JoinSplit(s: string, sep: char)
    ensures Join(Split(s, sep), sep) == s
    decreases |s|
  {
    if |s| == 0 {
    } else if s[0] == sep {
      JoinSplit(s[1..], sep);
      assert s == [sep] + s[1..];
    } else {
      var rest := Split(s[1..], sep);
      JoinSplit(s[1..], sep);
      if |rest| == 1 {
        assert s == [s[0]] + s[1..];
      } else {
        assert Join(rest, sep) == rest[0] + [sep] + Join(rest[1..], sep);
        var r := [[s[0]] + rest[0]] + rest[1..];
        assert r[1..] == rest[1..];
        assert s == [s[0]] + s[1..];
      }
    }
  }

  /** The text `replace` inserts for a replacement string: `$$` is a dollar
      sign, `$&` the matched text, `` $` `` the text before the match and
      `$'` the text after it; anything else is copied. */
  function Substitute(rep: string, matched: string, before: string, after: string): string
    decreases |rep|
  {
    if |rep| == 0 then ""
    else if |rep| >= 2 && rep[0] == '$' && rep[1] == '$' then "$" + Substitute(rep[2..], matched, before, after)
    else if |rep| >= 2 && rep[0] == '$' && rep[1] == '&' then matched + Substitute(rep[2..], matched, before, after)
    else if |rep| >= 2 && rep[0] == '$' && rep[1] == '`' then before + Substitute(rep[2..], matched, before, after)
    else if |rep| >= 2 && rep[0] == '$' && rep[1] == '\'' then after + Substitute(rep[2..], matched, before, after)
    else [rep[0]] + Substitute(rep[1..], matched, before, after)
  }

  /** A replacement without a dollar sign is inserted verbatim. */
  lemma {:induction false} SubstituteLiteral(rep: string, matched: string, before: string, after: string)
    requires '$' !in rep
    ensures Substitute(rep, matched, before, after) == rep
    decreases |rep|
  {
    if |rep| > 0 {
      assert rep[0] != '$';
      assert forall c :: c in rep[1..] ==> c in rep;
      SubstituteLiteral(rep[1..], matched, before, after);
      assert rep == [rep[0]] + rep[1..];
    }
  }

  /** `s.replace(p, rep)` with a string pattern: only the first occurrence of
      `p` is replaced. */
  function ReplaceFirst(s: string, p: string, rep: string): string
  {
    match IndexOf(s, p)
    case None => s
    case Some(i) => s[..i] + Substitute(rep, p, s[..i], s[i + |p|..]) + s[i + |p|..]
  }

  /** No occurrence, no change. */
  lemma ReplaceAbsent(s: string, p: string, rep: string)
    requires !Includes(s, p)
    ensures ReplaceFirst(s, p, rep) == s
  {
  }

  /** With a dollar-free replacement, the first occurrence of `p` (at the
      lowest index where it occurs) is swapped for `rep` and everything
      before and after it is kept, including later occurrences of `p`. */
  lemma ReplaceFirstOccurrence(s: string, p: string, rep: string, i: nat)
    requires OccursAt(s, p, i)
    requires forall j :: 0 <= j < i ==> !OccursAt(s, p, j)
    requires '$' !in rep
    ensures ReplaceFirst(s, p, rep) == s[..i] + rep + s[i + |p|..]
  {
    var r := IndexOf(s, p);
    assert r.Some?;
    assert r.value == i;
    SubstituteLiteral(rep, p, s[..i], s[i + |p|..]);
  }
}

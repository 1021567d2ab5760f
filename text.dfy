/**
 * The handful of Python string operations the checker relies on: the substring
 * test `pat in text`, `str.lower`, `template.format(username=...)`,
 * `str.replace(pat, "")`, `str(int)`, `sep.join(parts)` and `c * n`.
 * Characters are treated as ASCII (see README, "Left out").
 */
module Text {

  /** `pat` occurs in `text` starting at index `i`. */
  ghost predicate OccursAt(text: string, pat: string, i: int) {
    0 <= i && i + |pat| <= |text| && text[i..i + |pat|] == pat
  }

  /** Python's substring test `pat in text`. */
  predicate Contains(text: string, pat: string)
    decreases |text|
  {
    (|pat| <= |text| && text[..|pat|] == pat) || (text != [] && Contains(text[1..], pat))
  }

  /** The recursive search finds exactly the occurrences at some index. */
  lemma {:induction false} ContainsIffOccurs(text: string, pat: string)
    ensures Contains(text, pat) <==> exists i :: OccursAt(text, pat, i)
    decreases |text|
  {
    if |pat| <= |text| && text[..|pat|] == pat {
      assert OccursAt(text, pat, 0);
    } else if text != [] {
      ContainsIffOccurs(text[1..], pat);
      if Contains(text[1..], pat) {
        var i :| OccursAt(text[1..], pat, i);
        assert text[1..][i..i + |pat|] == text[i + 1..i + 1 + |pat|];
        assert OccursAt(text, pat, i + 1);
      }
      if exists i :: OccursAt(text, pat, i) {
        var i :| OccursAt(text, pat, i);
        assert i != 0;
        assert text[1..][i - 1..i - 1 + |pat|] == text[i..i + |pat|];
        assert OccursAt(text[1..], pat, i - 1);
      }
    }
  }

  /** Every character of a found pattern is a character of the text. */
  lemma {:induction false} ContainsCharsOf(text: string, pat: string, k: int)
    requires Contains(text, pat) && 0 <= k < |pat|
    ensures exists j :: 0 <= j < |text| && text[j] == pat[k]
    decreases |text|
  {
    if |pat| <= |text| && text[..|pat|] == pat {
      assert text[k] == pat[k];
    } else {
      ContainsCharsOf(text[1..], pat, k);
      var j :| 0 <= j < |text[1..]| && text[1..][j] == pat[k];
      assert text[j + 1] == pat[k];
    }
  }

  predicate IsUpper(c: char) {
    'A' <= c <= 'Z'
  }

  function LowerChar(c: char): (d: char)
    ensures !IsUpper(d)
    ensures IsUpper(c) ==> d as int == c as int + 32
    ensures !IsUpper(c) ==> d == c
  {
    if IsUpper(c) then (c as int + 32) as char else c
  }

  /** `str.lower()` on ASCII: upper-case letters become lower-case, nothing else changes. */
  function Lower(s: string): (r: string)
    ensures |r| == |s|
    ensures forall i :: 0 <= i < |r| ==> !IsUpper(r[i])
    ensures forall i :: 0 <= i < |s| && !IsUpper(s[i]) ==> r[i] == s[i]
    ensures forall i :: 0 <= i < |s| && IsUpper(s[i]) ==> r[i] as int == s[i] as int + 32
  {
    seq(|s|, i requires 0 <= i < |s| => LowerChar(s[i]))
  }

  /** A pattern holding an upper-case letter is never found in lower-cased text. */
  lemma UpperNeverInLowered(body: string, pat: string, k: int)
    requires 0 <= k < |pat| && IsUpper(pat[k])
    ensures !Contains(Lower(body), pat)
  {
    if Contains(Lower(body), pat) {
      ContainsCharsOf(Lower(body), pat, k);
    }
  }

  /** The only replacement field the templates use. */
  const Placeholder: string := "{username}"

  predicate NoBrace(s: string) {
    forall i :: 0 <= i < |s| ==> s[i] != '{'
  }

  /** `template.format(username=username)`: every `{username}` is replaced, left to right. */
  function Format(template: string, username: string): string
    decreases |template|
  {
    if template == [] then []
    else if |Placeholder| <= |template| && template[..|Placeholder|] == Placeholder then
      username + Format(template[|Placeholder|..], username)
    else
      [template[0]] + Format(template[1..], username)
  }

  /** A template without a replacement field formats to itself. */
  lemma {:induction false} FormatNoField(template: string, username: string)
    requires NoBrace(template)
    ensures Format(template, username) == template
    decreases |template|
  {
    if template != [] {
      assert !(|Placeholder| <= |template| && template[..|Placeholder|] == Placeholder) by {
        if |Placeholder| <= |template| { assert template[0] != Placeholder[0]; }
      }
      FormatNoField(template[1..], username);
    }
  }

  /** The field is replaced by the username, and the text around it is kept. */
  lemma {:induction false} FormatField(prefix: string, rest: string, username: string)
    requires NoBrace(prefix)
    ensures Format(prefix + Placeholder + rest, username) == prefix + username + Format(rest, username)
    decreases |prefix|
  {
    var t := prefix + Placeholder + rest;
    if prefix == [] {
      assert t[..|Placeholder|] == Placeholder;
      assert t[|Placeholder|..] == rest;
    } else {
      assert !(|Placeholder| <= |t| && t[..|Placeholder|] == Placeholder) by {
        if |Placeholder| <= |t| { assert t[0] == prefix[0] != Placeholder[0]; }
      }
      assert t[1..] == prefix[1..] + Placeholder + rest;
      FormatField(prefix[1..], rest, username);
      assert [prefix[0]] + prefix[1..] == prefix;
    }
  }

  /** `s.replace(pat, "")`: every occurrence found scanning left to right is deleted. */
  function RemoveAll(s: string, pat: string): (r: string)
    requires pat != []
    ensures |r| <= |s|
    decreases |s|
  {
    if s == [] then []
    else if |pat| <= |s| && s[..|pat|] == pat then RemoveAll(s[|pat|..], pat)
    else [s[0]] + RemoveAll(s[1..], pat)
  }

  /** Removing a pattern that does not occur changes nothing. */
  lemma {:induction false} RemoveAbsent(s: string, pat: string)
    requires pat != [] && !Contains(s, pat)
    ensures RemoveAll(s, pat) == s
    decreases |s|
  {
    if s != [] {
      RemoveAbsent(s[1..], pat);
      assert [s[0]] + s[1..] == s;
    }
  }

  /** A head in which no occurrence of `pat` can start is kept whole by the removal. */
  lemma {:induction false} RemoveKeepsHead(head: string, rest: string, pat: string)
    requires |pat| >= 2
    requires forall i {:trigger head[i]} :: 0 <= i < |head| ==> head[i] != pat[0] || (i + 1 < |head| && head[i + 1] != pat[1])
    ensures RemoveAll(head + rest, pat) == head + RemoveAll(rest, pat)
    decreases |head|
  {
    if head != [] {
      var s := head + rest;
      assert !(|pat| <= |s| && s[..|pat|] == pat) by {
        if |pat| <= |s| {
          if head[0] != pat[0] {
            assert s[..|pat|][0] == head[0];
          } else {
            assert s[..|pat|][1] == head[1] != pat[1];
          }
        }
      }
      assert s[1..] == head[1..] + rest;
      var tail := head[1..];
      forall i | 0 <= i < |tail|
        ensures tail[i] != pat[0] || (i + 1 < |tail| && tail[i + 1] != pat[1])
      {
        var j := i + 1;
        assert 0 <= j < |head|;
        assert head[j] != pat[0] || (j + 1 < |head| && head[j + 1] != pat[1]);
        assert tail[i] == head[i + 1];
        if i + 1 < |tail| { assert tail[i + 1] == head[i + 2]; }
      }
      RemoveKeepsHead(tail, rest, pat);
      assert s[0] == head[0];
      assert RemoveAll(s, pat) == [head[0]] + RemoveAll(tail + rest, pat);
      assert [head[0]] + (tail + RemoveAll(rest, pat)) == head + RemoveAll(rest, pat);
    } else {
      assert head + rest == rest;
    }
  }

  /** A head followed by one occurrence of `pat` that only it can start loses exactly that occurrence. */
  lemma RemoveTrailing(head: string, pat: string)
    requires |pat| >= 2
    requires forall i {:trigger head[i]} :: 0 <= i < |head| ==> head[i] != pat[0] || (i + 1 < |head| && head[i + 1] != pat[1])
    ensures RemoveAll(head + pat, pat) == head
  {
    RemoveKeepsHead(head, pat, pat);
    assert pat[..|pat|] == pat && pat[|pat|..] == [];
    assert head + [] == head;
  }

  function DigitChar(d: nat): char
    requires d < 10
  {
    "0123456789"[d]
  }

  function NatToString(n: nat): (r: string)
    ensures |r| >= 1
    ensures forall i :: 0 <= i < |r| ==> '0' <= r[i] <= '9'
    decreases n
  {
    if n < 10 then [DigitChar(n)] else NatToString(n / 10) + [DigitChar(n % 10)]
  }

  /** `str(n)` for an integer status code. */
  function IntToString(n: int): string {
    if n < 0 then "-" + NatToString(-n) else NatToString(n)
  }

  /** `c * n` on a one-character string. */
  function Repeat(c: char, n: nat): (r: string)
    ensures |r| == n
    ensures forall i :: 0 <= i < n ==> r[i] == c
  {
    seq(n, _ => c)
  }

  /** `sep.join(parts)`. */
  function Join(parts: seq<string>, sep: string): string
    decreases |parts|
  {
    if parts == [] then []
    else if |parts| == 1 then parts[0]
    else parts[0] + sep + Join(parts[1..], sep)
  }
}

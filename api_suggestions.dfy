/**
 * The serverless checker's suggestion generator: when a key platform is not
 * available, push `username` combined with fixed suffixes, separators, numbers
 * and prefixes, keep the valid, not yet seen ones in push order, and keep the
 * first 18.
 */
module ApiSuggestions {
  import opened Handles

  const KeyPlatforms: set<string> :=
    {"GitHub", "Reddit", "TikTok", "X", "GitLab", "Bitbucket", "Dev.to", "CodePen", "Dribbble", "Behance"}
  const Suffixes: seq<string> := ["hq", "dev", "app", "io", "official", "real"]
  const Separators: seq<string> := ["_", ".", "-"]
  const Numbers: seq<string> := ["01", "1", "2", "3"]
  const MaxSuggestions: nat := 18

  /** `_is_valid`: the length test first, then an early-return scan of the characters. */
  method IsValid(candidate: string) returns (ok: bool)
    ensures ok == ValidHandle(candidate)
  {
    if !(MinLength <= |candidate| <= MaxLength) {
      return false;
    }
    for i := 0 to |candidate|
      invariant forall k :: 0 <= k < i ==> IsHandleChar(candidate[k])
    {
      if !(IsAlnum(candidate[i]) || candidate[i] in {'_', '.'}) {
        return false;
      }
    }
    return true;
  }

  /** Some key platform reported anything but "available". */
  predicate NeedsSuggestions(results: seq<ProbeResult>) {
    exists i :: 0 <= i < |results| && results[i].platform in KeyPlatforms && results[i].status != Available
  }

  // ---------------------------------------------------------------------------
  // The stream of pushed values, in the order the loops push them

  /** One outer-loop iteration: `username + x`, then `username + sep + x` for each separator. */
  function Variants(username: string, x: string): seq<string> {
    [username + x] + seq(|Separators|, j requires 0 <= j < |Separators| => username + Separators[j] + x)
  }

  function Concat(blocks: seq<seq<string>>): seq<string>
    decreases |blocks|
  {
    if blocks == [] then [] else Concat(blocks[..|blocks| - 1]) + blocks[|blocks| - 1]
  }

  /** The values one outer loop pushes, grouped by iteration. */
  function Blocks(username: string, xs: seq<string>): seq<seq<string>> {
    seq(|xs|, i requires 0 <= i < |xs| => Variants(username, xs[i]))
  }

  function Prefixed(username: string): seq<string> {
    ["its" + username, "the" + username, username + "_dev"]
  }

  /** Every value `push` is called with, in call order. */
  function Generated(username: string): seq<string> {
    Concat(Blocks(username, Suffixes)) + Concat(Blocks(username, Numbers)) + Prefixed(username)
  }

  // ---------------------------------------------------------------------------
  // What `push` does to the candidate list

  /** `push(value)`: append `value` unless already seen or invalid. */
  function Pushed(candidates: seq<string>, value: string): seq<string> {
    if value in candidates || !ValidHandle(value) then candidates else candidates + [value]
  }

  /** The candidate list after pushing `values` in order, starting empty. */
  function PushedAll(values: seq<string>): seq<string>
    decreases |values|
  {
    if values == [] then [] else Pushed(PushedAll(values[..|values| - 1]), values[|values| - 1])
  }

  /** `candidates[:n]`. */
  function Take(s: seq<string>, n: nat): (r: seq<string>)
    ensures |r| == if |s| <= n then |s| else n
    ensures r == s[..|r|]
  {
    if |s| <= n then s else s[..n]
  }

  /** `generate_suggestions(username, results)`. */
  function Suggestions(username: string, results: seq<ProbeResult>): seq<string> {
    if !NeedsSuggestions(results) then [] else Take(PushedAll(Generated(username)), MaxSuggestions)
  }

  /** The `seen` set holds exactly the listed candidates. */
  ghost predicate Mirrors(seen: set<string>, candidates: seq<string>) {
    forall x :: x in seen <==> x in candidates
  }

  /** The `push` closure, acting on the `candidates` list and the `seen` set. */
  method Push(candidates: seq<string>, seen: set<string>, value: string)
    returns (candidates': seq<string>, seen': set<string>)
    requires Mirrors(seen, candidates)
    ensures candidates' == Pushed(candidates, value)
    ensures Mirrors(seen', candidates')
  {
    if value in seen {
      return candidates, seen;
    }
    var ok := IsValid(value);
    if !ok {
      return candidates, seen;
    }
    return candidates + [value], seen + {value};
  }

  lemma PushedAllSnoc(values: seq<string>, value: string)
    ensures PushedAll(values + [value]) == Pushed(PushedAll(values), value)
  {
    assert (values + [value])[..|values|] == values;
  }

  lemma ConcatSnoc(blocks: seq<seq<string>>, i: nat)
    requires i < |blocks|
    ensures Concat(blocks[..i + 1]) == Concat(blocks[..i]) + blocks[i]
  {
    assert blocks[..i + 1][..i] == blocks[..i];
  }

  /** One outer-loop iteration: push `username + x`, then `username + sep + x` for each separator. */
  method PushBlock(candidates: seq<string>, seen: set<string>, username: string, x: string, ghost before: seq<string>)
    returns (candidates': seq<string>, seen': set<string>)
    requires Mirrors(seen, candidates) && candidates == PushedAll(before)
    ensures Mirrors(seen', candidates') && candidates' == PushedAll(before + Variants(username, x))
  {
    ghost var block := Variants(username, x);
    candidates', seen' := PushNext(candidates, seen, username + x, before);
    assert block[..1] == [username + x];
    for j := 0 to |Separators|
      invariant Mirrors(seen', candidates')
      invariant candidates' == PushedAll(before + block[..j + 1])
    {
      ghost var done := before + block[..j + 1];
      assert block[j + 1] == username + Separators[j] + x;
      candidates', seen' := PushNext(candidates', seen', username + Separators[j] + x, done);
      assert done + [block[j + 1]] == before + block[..j + 2];
    }
    assert block[..|Separators| + 1] == block;
  }

  /** `push(value)` seen as one more step of the stream `done`. */
  method PushNext(candidates: seq<string>, seen: set<string>, value: string, ghost done: seq<string>)
    returns (candidates': seq<string>, seen': set<string>)
    requires Mirrors(seen, candidates) && candidates == PushedAll(done)
    ensures Mirrors(seen', candidates') && candidates' == PushedAll(done + [value])
  {
    candidates', seen' := Push(candidates, seen, value);
    PushedAllSnoc(done, value);
  }

  /** One of the two outer loops: `for x in xs: push(username + x); for sep in separators: ...`. */
  method PushAllVariants(candidates: seq<string>, seen: set<string>, username: string, xs: seq<string>, ghost before: seq<string>)
    returns (candidates': seq<string>, seen': set<string>)
    requires Mirrors(seen, candidates) && candidates == PushedAll(before)
    ensures Mirrors(seen', candidates') && candidates' == PushedAll(before + Concat(Blocks(username, xs)))
  {
    ghost var blocks := Blocks(username, xs);
    candidates', seen' := candidates, seen;
    assert before + Concat(blocks[..0]) == before;
    for i := 0 to |xs|
      invariant Mirrors(seen', candidates')
      invariant candidates' == PushedAll(before + Concat(blocks[..i]))
    {
      candidates', seen' := PushBlock(candidates', seen', username, xs[i], before + Concat(blocks[..i]));
      ConcatSnoc(blocks, i);
      assert before + Concat(blocks[..i]) + blocks[i] == before + Concat(blocks[..i + 1]);
    }
    assert blocks[..|xs|] == blocks;
  }

  /** `generate_suggestions`: both outer loops, the three prefixed pushes, then the cut to 18. */
  method GenerateSuggestions(username: string, results: seq<ProbeResult>) returns (suggestions: seq<string>)
    ensures suggestions == Suggestions(username, results)
  {
    if !NeedsSuggestions(results) {
      return [];
    }
    var candidates: seq<string> := [];
    var seen: set<string> := {};
    candidates, seen := PushAllVariants(candidates, seen, username, Suffixes, []);
    ghost var done := Concat(Blocks(username, Suffixes));
    assert [] + done == done;
    candidates, seen := PushAllVariants(candidates, seen, username, Numbers, done);
    ghost var pushed := done + Concat(Blocks(username, Numbers));
    candidates, seen := Push(candidates, seen, "its" + username);
    PushedAllSnoc(pushed, "its" + username);
    candidates, seen := Push(candidates, seen, "the" + username);
    PushedAllSnoc(pushed + ["its" + username], "the" + username);
    candidates, seen := Push(candidates, seen, username + "_dev");
    PushedAllSnoc(pushed + ["its" + username] + ["the" + username], username + "_dev");
    assert pushed + ["its" + username] + ["the" + username] + [username + "_dev"] == Generated(username);
    suggestions := if |candidates| <= MaxSuggestions then candidates else candidates[..MaxSuggestions];
  }

  // ---------------------------------------------------------------------------
  // Properties of the generated list

  /** Position of the first occurrence of `x` in `xs`. */
  function IndexOf(xs: seq<string>, x: string): (k: nat)
    requires x in xs
    ensures k < |xs| && xs[k] == x && x !in xs[..k]
    decreases |xs|
  {
    if xs[0] == x then 0
    else
      var k := IndexOf(xs[1..], x);
      assert xs[..k + 1] == [xs[0]] + xs[1..][..k];
      k + 1
  }

  lemma IndexOfSnoc(xs: seq<string>, y: string, x: string)
    requires x in xs
    ensures IndexOf(xs + [y], x) == IndexOf(xs, x)
    decreases |xs|
  {
    if xs[0] != x {
      assert (xs + [y])[1..] == xs[1..] + [y];
      IndexOfSnoc(xs[1..], y, x);
    }
  }

  lemma IndexOfLast(xs: seq<string>, x: string)
    requires x !in xs
    ensures IndexOf(xs + [x], x) == |xs|
  {
  }

  /**
   * `push` keeps exactly the valid values, each once, in the order of their
   * first push.
   */
  lemma {:induction false} PushedAllFacts(values: seq<string>)
    ensures forall x :: x in PushedAll(values) <==> x in values && ValidHandle(x)
    ensures forall i, j :: 0 <= i < j < |PushedAll(values)| ==> PushedAll(values)[i] != PushedAll(values)[j]
    ensures forall i, j :: 0 <= i < j < |PushedAll(values)| ==>
              IndexOf(values, PushedAll(values)[i]) < IndexOf(values, PushedAll(values)[j])
    decreases |values|
  {
    if values != [] {
      var init, x := values[..|values| - 1], values[|values| - 1];
      assert values == init + [x];
      PushedAllFacts(init);
      var before := PushedAll(init);
      forall y | y in init
        ensures IndexOf(values, y) == IndexOf(init, y)
      {
        IndexOfSnoc(init, x, y);
      }
      if x !in before && ValidHandle(x) {
        assert x !in init;
        IndexOfLast(init, x);
        var after := before + [x];
        assert PushedAll(values) == after;
        forall i, j | 0 <= i < j < |after|
          ensures IndexOf(values, after[i]) < IndexOf(values, after[j])
        {
          if j == |before| {
            assert after[i] == before[i] && before[i] in init;
          } else {
            assert after[i] == before[i] && after[j] == before[j];
          }
        }
      }
    }
  }

  lemma {:induction false} NothingValidNothingPushed(values: seq<string>)
    requires forall x :: x in values ==> !ValidHandle(x)
    ensures PushedAll(values) == []
    decreases |values|
  {
    if values != [] {
      NothingValidNothingPushed(values[..|values| - 1]);
      assert values[|values| - 1] in values;
    }
  }

  lemma {:induction false} InConcat(blocks: seq<seq<string>>, i: int, k: int)
    requires 0 <= i < |blocks| && 0 <= k < |blocks[i]|
    ensures blocks[i][k] in Concat(blocks)
    decreases |blocks|
  {
    if i < |blocks| - 1 {
      InConcat(blocks[..|blocks| - 1], i, k);
    }
  }

  lemma {:induction false} ConcatLonger(blocks: seq<seq<string>>, n: int)
    requires forall i, k :: 0 <= i < |blocks| && 0 <= k < |blocks[i]| ==> |blocks[i][k]| > n
    ensures forall x :: x in Concat(blocks) ==> |x| > n
    decreases |blocks|
  {
    if blocks != [] {
      ConcatLonger(blocks[..|blocks| - 1], n);
    }
  }

  lemma BlocksLonger(username: string, xs: seq<string>)
    requires forall i :: 0 <= i < |xs| ==> xs[i] != []
    ensures forall x :: x in Concat(Blocks(username, xs)) ==> |x| > |username|
  {
    var blocks := Blocks(username, xs);
    forall i, k | 0 <= i < |blocks| && 0 <= k < |blocks[i]|
      ensures |blocks[i][k]| > |username|
    {
      assert blocks[i] == Variants(username, xs[i]);
      if k > 0 {
        assert blocks[i][k] == username + Separators[k - 1] + xs[i];
      }
    }
    ConcatLonger(blocks, |username|);
  }

  /** Every pushed value extends the username by at least one character. */
  lemma GeneratedLonger(username: string)
    ensures forall x :: x in Generated(username) ==> |x| > |username|
  {
    assert forall i :: 0 <= i < |Suffixes| ==> Suffixes[i] != [];
    assert forall i :: 0 <= i < |Numbers| ==> Numbers[i] != [];
    BlocksLonger(username, Suffixes);
    BlocksLonger(username, Numbers);
  }

  /**
   * What `generate_suggestions` returns: at most 18 values, each a pushed value
   * passing `_is_valid` (so none holds "-"), pairwise distinct, in the order
   * they were first pushed.
   */
  lemma SuggestionsFacts(username: string, results: seq<ProbeResult>)
    ensures var s := Suggestions(username, results);
      var all := PushedAll(Generated(username));
      && |s| <= MaxSuggestions
      && (NeedsSuggestions(results) ==>
            |s| == (if |all| <= MaxSuggestions then |all| else MaxSuggestions) && s == all[..|s|])
      && (forall x :: x in s ==> x in Generated(username) && ValidHandle(x))
      && (forall x :: x in s ==> '-' !in x)
      && (forall i, j :: 0 <= i < j < |s| ==> s[i] != s[j])
      && (forall i, j :: 0 <= i < j < |s| ==>
            IndexOf(Generated(username), s[i]) < IndexOf(Generated(username), s[j]))
  {
    var all := PushedAll(Generated(username));
    PushedAllFacts(Generated(username));
    var s := Suggestions(username, results);
    assert s == [] || s == all[..|s|];
    forall x | x in s
      ensures '-' !in x
    {
      assert ValidHandle(x);
    }
  }

  /** The last push, `{username}_dev`, repeats the second value of the "dev" iteration, so it adds nothing. */
  lemma FinalDevPushAddsNothing(username: string)
    ensures var g := Generated(username);
      PushedAll(g) == PushedAll(g[..|g| - 1])
  {
    var g := Generated(username);
    var init := g[..|g| - 1];
    var blocks := Blocks(username, Suffixes);
    assert blocks[1][1] == username + "_" + "dev" == username + "_dev";
    InConcat(blocks, 1, 1);
    assert g == init + [username + "_dev"];
    assert Concat(blocks) <= init;
    PushedAllFacts(init);
    PushedAllSnoc(init, username + "_dev");
  }

  /** A 30-character username extends to nothing valid, so there are no suggestions. */
  lemma LongUsernameGetsNone(username: string, results: seq<ProbeResult>)
    requires |username| >= MaxLength
    ensures Suggestions(username, results) == []
  {
    var g := Generated(username);
    GeneratedLonger(username);
    assert forall x :: x in g ==> !ValidHandle(x);
    NothingValidNothingPushed(g);
  }

  /** A valid username shorter than 30 always has `{username}1` to suggest when suggestions are needed. */
  lemma ShortUsernameGetsSome(username: string, results: seq<ProbeResult>)
    requires ValidHandle(username) && |username| < MaxLength && NeedsSuggestions(results)
    ensures Suggestions(username, results) != []
  {
    var g := Generated(username);
    var numbers := Blocks(username, Numbers);
    var x := username + "1";
    assert numbers[1][0] == x;
    InConcat(numbers, 1, 0);
    assert x in g;
    assert ValidHandle(x) by {
      forall i | 0 <= i < |x| ensures IsHandleChar(x[i]) {
        if i < |username| { assert x[i] == username[i]; }
      }
    }
    PushedAllFacts(g);
    assert x in PushedAll(g);
  }

  /** For a valid username: no suggestions exactly when none are needed or the username is 30 long. */
  lemma SuggestionsEmptyIff(username: string, results: seq<ProbeResult>)
    requires ValidHandle(username)
    ensures Suggestions(username, results) == [] <==> !NeedsSuggestions(results) || |username| == MaxLength
  {
    if |username| == MaxLength {
      LongUsernameGetsNone(username, results);
    } else if NeedsSuggestions(results) {
      ShortUsernameGetsSome(username, results);
    }
  }
}

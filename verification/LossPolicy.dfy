/** The loss policy of loss_policy.go: a glob over dot-separated loss paths,
    matched by a loop that recurses at every "**", and first-match rules over it. */
module LossPolicy {

  // ----- What a pattern means -----

  /** The path segments one pattern segment may stand for. */
  predicate BlockOk(segment: string, block: seq<string>) {
    if segment == "**" then true
    else if segment == "*" then |block| == 1
    else block == [segment]
  }

  function Flatten(blocks: seq<seq<string>>): seq<string> {
    if blocks == [] then [] else blocks[0] + Flatten(blocks[1..])
  }

  /** blocks cuts path into one block for each pattern segment. */
  ghost predicate Cuts(pattern: seq<string>, path: seq<string>, blocks: seq<seq<string>>) {
    && |blocks| == |pattern|
    && Flatten(blocks) == path
    && forall i :: 0 <= i < |pattern| ==> BlockOk(pattern[i], blocks[i])
  }

  ghost predicate Matches(pattern: seq<string>, path: seq<string>) {
    exists blocks :: Cuts(pattern, path, blocks)
  }

  // ----- Unfolding the meaning one segment at a time -----

  lemma MatchesNil(path: seq<string>)
    ensures Matches([], path) <==> path == []
  {
    if path == [] {
      assert Cuts([], path, []);
    }
  }

  lemma MatchesCons(pattern: seq<string>, path: seq<string>, block: seq<string>, rest: seq<string>)
    requires pattern != []
    requires path == block + rest && BlockOk(pattern[0], block) && Matches(pattern[1..], rest)
    ensures Matches(pattern, path)
  {
    var blocks :| Cuts(pattern[1..], rest, blocks);
    var all := [block] + blocks;
    assert all[1..] == blocks;
    forall i | 0 <= i < |pattern| ensures BlockOk(pattern[i], all[i]) {
      if i > 0 { assert pattern[i] == pattern[1..][i - 1]; }
    }
    assert Cuts(pattern, path, all);
  }

  lemma MatchesUncons(pattern: seq<string>, path: seq<string>) returns (k: nat)
    requires pattern != [] && Matches(pattern, path)
    ensures k <= |path| && BlockOk(pattern[0], path[..k]) && Matches(pattern[1..], path[k..])
  {
    var blocks :| Cuts(pattern, path, blocks);
    k := |blocks[0]|;
    assert path == blocks[0] + Flatten(blocks[1..]);
    assert path[..k] == blocks[0] && path[k..] == Flatten(blocks[1..]);
    forall i | 0 <= i < |pattern[1..]| ensures BlockOk(pattern[1..][i], blocks[1..][i]) {
      assert BlockOk(pattern[i + 1], blocks[i + 1]);
    }
    assert Cuts(pattern[1..], path[k..], blocks[1..]);
  }

  /** "*" and a literal take exactly one segment. */
  lemma MatchesOne(pattern: seq<string>, path: seq<string>)
    requires pattern != [] && pattern[0] != "**"
    ensures Matches(pattern, path) <==>
            path != [] && (pattern[0] == "*" || path[0] == pattern[0]) && Matches(pattern[1..], path[1..])
  {
    if Matches(pattern, path) {
      var k := MatchesUncons(pattern, path);
      assert path[..k][0] == path[0];
    }
    if path != [] && (pattern[0] == "*" || path[0] == pattern[0]) && Matches(pattern[1..], path[1..]) {
      MatchesCons(pattern, path, [path[0]], path[1..]);
    }
  }

  /** "**" takes any number of segments. */
  lemma MatchesAny(pattern: seq<string>, path: seq<string>)
    requires pattern != [] && pattern[0] == "**"
    ensures Matches(pattern, path) <==> exists k :: 0 <= k <= |path| && Matches(pattern[1..], path[k..])
  {
    if Matches(pattern, path) {
      var k := MatchesUncons(pattern, path);
    }
    if k :| 0 <= k <= |path| && Matches(pattern[1..], path[k..]) {
      MatchesCons(pattern, path, path[..k], path[k..]);
    }
  }

  // ----- The matcher -----

  method MatchLossPath(pattern: seq<string>, path: seq<string>) returns (matched: bool)
    ensures matched <==> Matches(pattern, path)
    decreases |pattern|
  {
    var p, s := pattern, path;
    while |p| > 0
      invariant |p| <= |pattern|
      invariant Matches(p, s) <==> Matches(pattern, path)
      decreases |p|
    {
      if p[0] == "**" {
        MatchesAny(p, s);
        var skip := 0;
        while skip <= |s|
          invariant skip <= |s| + 1
          invariant forall k :: 0 <= k < skip ==> !Matches(p[1..], s[k..])
        {
          var rest := MatchLossPath(p[1..], s[skip..]);
          if rest {
            return true;
          }
          skip := skip + 1;
        }
        return false;
      }
      MatchesOne(p, s);
      if p[0] == "*" {
        if |s| == 0 {
          return false;
        }
      } else if |s| == 0 || s[0] != p[0] {
        return false;
      }
      p, s := p[1..], s[1..];
    }
    MatchesNil(s);
    return |s| == 0;
  }

  // ----- Algebra of the meaning -----

  /** A concatenated pattern matches exactly when the path can be cut between its halves. */
  lemma {:induction false} MatchesConcat(p: seq<string>, q: seq<string>, path: seq<string>)
    ensures Matches(p + q, path) <==> exists k :: 0 <= k <= |path| && Matches(p, path[..k]) && Matches(q, path[k..])
  {
    if Matches(p + q, path) {
      var k := CutBetween(p, q, path);
    }
    if k :| 0 <= k <= |path| && Matches(p, path[..k]) && Matches(q, path[k..]) {
      Join(p, q, path[..k], path[k..]);
      assert path == path[..k] + path[k..];
    }
  }

  lemma {:induction false} CutBetween(p: seq<string>, q: seq<string>, path: seq<string>) returns (k: nat)
    requires Matches(p + q, path)
    ensures k <= |path| && Matches(p, path[..k]) && Matches(q, path[k..])
    decreases |p|
  {
    if p == [] {
      k := 0;
      MatchesNil(path[..0]);
      assert p + q == q && path[0..] == path;
    } else {
      var j := MatchesUncons(p + q, path);
      assert (p + q)[1..] == p[1..] + q;
      var i := CutBetween(p[1..], q, path[j..]);
      k := j + i;
      assert path[j..][i..] == path[k..] && path[j..][..i] == path[j..k];
      assert path[..k] == path[..j] + path[j..k];
      MatchesCons(p, path[..k], path[..j], path[j..k]);
    }
  }

  lemma {:induction false} Join(p: seq<string>, q: seq<string>, front: seq<string>, back: seq<string>)
    requires Matches(p, front) && Matches(q, back)
    ensures Matches(p + q, front + back)
    decreases |p|
  {
    if p == [] {
      MatchesNil(front);
      assert p + q == q && front + back == back;
    } else {
      var j := MatchesUncons(p, front);
      Join(p[1..], q, front[j..], back);
      assert (p + q)[1..] == p[1..] + q;
      assert front + back == front[..j] + (front[j..] + back);
      MatchesCons(p + q, front + back, front[..j], front[j..] + back);
    }
  }

  /** Adjacent "**" segments mean one. */
  lemma AdjacentStarsCollapse(p: seq<string>, q: seq<string>, path: seq<string>)
    ensures Matches(p + ["**", "**"] + q, path) <==> Matches(p + ["**"] + q, path)
  {
    var two, one := ["**", "**"] + q, ["**"] + q;
    assert p + ["**", "**"] + q == p + two && p + ["**"] + q == p + one;
    forall s: seq<string> ensures Matches(two, s) <==> Matches(one, s) {
      assert two[1..] == one && one[1..] == q;
      MatchesAny(two, s);
      MatchesAny(one, s);
      if k :| 0 <= k <= |s| && Matches(one, s[k..]) {
        MatchesAny(one, s[k..]);
        var j :| 0 <= j <= |s[k..]| && Matches(q, s[k..][j..]);
        assert s[k..][j..] == s[k + j..];
      }
      if Matches(one, s) {
        assert s[0..] == s;
      }
    }
    MatchesConcat(p, two, path);
    MatchesConcat(p, one, path);
  }

  // ----- Rules -----

  datatype Action = Allow | Reject | UnknownAction(name: string)
  datatype Severity = AnySeverity | Material | Advisory | OtherSeverity(name: string)
  /** An empty class or path matches every loss. */
  datatype Rule = Rule(path: string, class_: string, severity: Severity, action: Action)
  datatype Loss = Loss(path: string, class_: string, severity: Severity)

  /** The dot-separated segments of a path; the empty path is one empty segment. */
  function Split(path: string): (segments: seq<string>)
    ensures segments != []
  {
    if path == "" then [""]
    else
      var rest := Split(path[1..]);
      if path[0] == '.' then [""] + rest else [[path[0]] + rest[0]] + rest[1..]
  }

  ghost predicate RuleMatches(rule: Rule, loss: Loss) {
    && (rule.class_ == "" || rule.class_ == loss.class_)
    && (rule.severity == AnySeverity || rule.severity == loss.severity)
    && (rule.path == "" || Matches(Split(rule.path), Split(loss.path)))
  }

  method RuleApplies(rule: Rule, loss: Loss) returns (applies: bool)
    ensures applies <==> RuleMatches(rule, loss)
  {
    if rule.class_ != "" && rule.class_ != loss.class_ {
      return false;
    }
    if rule.severity != AnySeverity && rule.severity != loss.severity {
      return false;
    }
    if rule.path == "" {
      return true;
    }
    applies := MatchLossPath(Split(rule.path), Split(loss.path));
  }

  /** action is what the first matching rule says, or the default when none matches. */
  ghost predicate Decides(rules: seq<Rule>, loss: Loss, action: Action) {
    if exists i :: 0 <= i < |rules| && RuleMatches(rules[i], loss) then
      exists i :: 0 <= i < |rules| && RuleMatches(rules[i], loss) && action == rules[i].action
                  && forall j :: 0 <= j < i ==> !RuleMatches(rules[j], loss)
    else
      action == if loss.severity == Advisory then Allow else Reject
  }

  method Decide(rules: seq<Rule>, loss: Loss) returns (action: Action)
    ensures Decides(rules, loss, action)
  {
    for i := 0 to |rules|
      invariant forall j :: 0 <= j < i ==> !RuleMatches(rules[j], loss)
    {
      var applies := RuleApplies(rules[i], loss);
      if applies {
        return rules[i].action;
      }
    }
    return if loss.severity == Advisory then Allow else Reject;
  }

  /** A policy decides every loss in exactly one way. */
  lemma DecisionIsUnique(rules: seq<Rule>, loss: Loss, a: Action, b: Action)
    requires Decides(rules, loss, a) && Decides(rules, loss, b)
    ensures a == b
  {
    if exists i :: 0 <= i < |rules| && RuleMatches(rules[i], loss) {
      var i :| 0 <= i < |rules| && RuleMatches(rules[i], loss) && a == rules[i].action
               && forall j :: 0 <= j < i ==> !RuleMatches(rules[j], loss);
      var k :| 0 <= k < |rules| && RuleMatches(rules[k], loss) && b == rules[k].action
               && forall j :: 0 <= j < k ==> !RuleMatches(rules[j], loss);
      assert i == k;
    }
  }

  /** The losses the policy rejects, in report order. */
  ghost function RejectedOf(rules: seq<Rule>, losses: seq<Loss>): seq<Loss> {
    if losses == [] then []
    else
      var last := losses[|losses| - 1];
      RejectedOf(rules, losses[..|losses| - 1]) + (if Decides(rules, last, Reject) then [last] else [])
  }

  method Rejected(rules: seq<Rule>, losses: seq<Loss>) returns (rejected: seq<Loss>)
    ensures rejected == RejectedOf(rules, losses)
  {
    rejected := [];
    for k := 0 to |losses|
      invariant rejected == RejectedOf(rules, losses[..k])
    {
      var action := Decide(rules, losses[k]);
      if action == Reject {
        rejected := rejected + [losses[k]];
      } else if Decides(rules, losses[k], Reject) {
        DecisionIsUnique(rules, losses[k], action, Reject);
      }
      assert losses[..k + 1][..k] == losses[..k];
    }
    assert losses[..|losses|] == losses;
  }

  lemma {:induction false} RejectedExactly(rules: seq<Rule>, losses: seq<Loss>, loss: Loss)
    ensures loss in RejectedOf(rules, losses) <==> loss in losses && Decides(rules, loss, Reject)
  {
    if losses != [] {
      RejectedExactly(rules, losses[..|losses| - 1], loss);
      assert losses == losses[..|losses| - 1] + [losses[|losses| - 1]];
    }
  }

  /** Check fails exactly when some loss is rejected, and names those losses. */
  method Check(rules: seq<Rule>, losses: seq<Loss>) returns (rejected: seq<Loss>)
    ensures rejected == RejectedOf(rules, losses)
    ensures rejected == [] <==> forall loss :: loss in losses ==> !Decides(rules, loss, Reject)
  {
    rejected := Rejected(rules, losses);
    forall loss: Loss ensures loss in rejected <==> loss in losses && Decides(rules, loss, Reject) {
      RejectedExactly(rules, losses, loss);
    }
    if rejected != [] {
      assert rejected[0] in rejected;
    }
  }
}

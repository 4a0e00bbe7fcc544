/** The permission rule engine: rules kept in priority order, the first match deciding. */
module PermissionRules {
  import opened Options

  datatype Action = Allow | Deny | Ask | AskSession

  datatype Source = Builtin | Global | Project | SessionGrant

  datatype Rule = Rule(
    id: string, toolPattern: string, pathPattern: Option<string>, action: Action, priority: nat,
    description: Option<string>, source: Source)

  /** A path as text, and its parent's text if it has one. */
  datatype Path = Path(text: string, parent: Option<string>)

  datatype Decision = Decision(action: Action, ruleId: Option<string>, reason: Option<string>)

  // ----- matching

  predicate EndsWith(s: string, suffix: string) {
    |suffix| <= |s| && s[|s| - |suffix|..] == suffix
  }

  predicate MatchesTool(pattern: string, tool: string) {
    if pattern == "*" then true
    else if EndsWith(pattern, "*") then pattern[..|pattern| - 1] <= tool
    else pattern == tool
  }

  predicate MatchesPath(pattern: string, path: Path) {
    if pattern == "*" || pattern == "**" then true
    else if EndsWith(pattern, "/**") then pattern[..|pattern| - 3] <= path.text
    else if EndsWith(pattern, "/*") && path.parent.Some? then path.parent.value == pattern[..|pattern| - 2]
    else path.text == pattern
  }

  /** A rule with a path pattern matches only requests that name a path. */
  predicate Matches(r: Rule, tool: string, path: Option<Path>) {
    && MatchesTool(r.toolPattern, tool)
    && (r.pathPattern.Some? ==> path.Some? && MatchesPath(r.pathPattern.value, path.value))
  }

  /** The pattern is the tool's name, or the beginning of it followed by a star. */
  ghost predicate MeantTool(pattern: string, tool: string) {
    pattern == tool || exists prefix :: pattern == prefix + "*" && prefix <= tool
  }

  // The pattern is a star or two; or a directory and a slash with two stars, where the path's text
  // begins with the directory's; or a directory and a slash with one star, where the directory is the
  // path's parent; or the path's own text, unless it is of the latter form and names another parent.
  ghost predicate MeantPath(pattern: string, path: Path) {
    || pattern == "*" || pattern == "**"
    || (exists dir :: pattern == dir + "/**" && dir <= path.text)
    || (exists dir :: pattern == dir + "/*" && path.parent == Some(dir))
    || (pattern == path.text && !(exists dir :: pattern == dir + "/*" && path.parent.Some? && path.parent.value != dir))
  }

  /** The rule is meant for the request. */
  ghost predicate Meant(r: Rule, tool: string, path: Option<Path>) {
    && MeantTool(r.toolPattern, tool)
    && match r.pathPattern
       case None => true
       case Some(pattern) => path.Some? && MeantPath(pattern, path.value)
  }

  lemma EndsIn(s: string, front: string, suffix: string)
    requires s == front + suffix
    ensures EndsWith(s, suffix) && s[..|s| - |suffix|] == front
  {
  }

  lemma MatchesToolExactly(pattern: string, tool: string)
    ensures MatchesTool(pattern, tool) <==> MeantTool(pattern, tool)
  {
    if EndsWith(pattern, "*") {
      var prefix := pattern[..|pattern| - 1];
      assert pattern == prefix + "*";
    }
    forall prefix | pattern == prefix + "*" ensures EndsWith(pattern, "*") && pattern[..|pattern| - 1] == prefix {
      EndsIn(pattern, prefix, "*");
    }
    if pattern == "*" { assert pattern == "" + "*"; }
  }

  lemma MatchesPathExactly(pattern: string, path: Path)
    ensures MatchesPath(pattern, path) <==> MeantPath(pattern, path)
  {
    if EndsWith(pattern, "/**") { assert pattern == pattern[..|pattern| - 3] + "/**"; }
    if EndsWith(pattern, "/*") { assert pattern == pattern[..|pattern| - 2] + "/*"; }
    forall dir | pattern == dir + "/**" ensures EndsWith(pattern, "/**") && pattern[..|pattern| - 3] == dir {
      EndsIn(pattern, dir, "/**");
    }
    forall dir | pattern == dir + "/*" ensures EndsWith(pattern, "/*") && pattern[..|pattern| - 2] == dir {
      EndsIn(pattern, dir, "/*");
    }
    LastButOne(pattern);
  }

  lemma LastButOne(pattern: string)
    ensures EndsWith(pattern, "/**") ==> pattern[|pattern| - 2] == '*'
    ensures EndsWith(pattern, "/*") ==> pattern[|pattern| - 2] == '/'
  {
    if EndsWith(pattern, "/**") { assert pattern[|pattern| - 3..][1] == pattern[|pattern| - 2]; }
    if EndsWith(pattern, "/*") { assert pattern[|pattern| - 2..][0] == pattern[|pattern| - 2]; }
  }

  lemma MatchesExactly(r: Rule, tool: string, path: Option<Path>)
    ensures Matches(r, tool, path) <==> Meant(r, tool, path)
  {
    hide MatchesTool, MatchesPath, MeantTool, MeantPath;
    MatchesToolExactly(r.toolPattern, tool);
    if r.pathPattern.Some? && path.Some? { MatchesPathExactly(r.pathPattern.value, path.value); }
  }

  /** A tool pattern that ends in a star stands for its beginning, any other for itself. */
  lemma ToolPatterns(prefix: string, tool: string)
    ensures MatchesTool(prefix + "*", tool) <==> prefix <= tool
    ensures !EndsWith(prefix, "*") ==> (MatchesTool(prefix, tool) <==> tool == prefix)
  {
    var pattern := prefix + "*";
    assert pattern[|pattern| - 1..] == "*" && pattern[..|pattern| - 1] == prefix;
    if pattern == "*" { assert prefix == ""; }
    if prefix == "*" { assert prefix[|prefix| - 1..] == "*"; }
  }

  /** The path is the directory or inside it. */
  predicate Inside(dir: string, path: Path) {
    path.text == dir || dir + "/" <= path.text
  }

  /** The path is beside the directory, with a name that goes on where the directory's ends. */
  predicate Beside(dir: string, path: Path) {
    dir < path.text && path.text[|dir|] != '/'
  }

  /** A pattern for everything in a directory matches just that, except that it also matches what is beside it. */
  lemma TreePatternExactly(dir: string, path: Path)
    ensures MatchesPath(dir + "/**", path) <==> Inside(dir, path) || Beside(dir, path)
    ensures !(Inside(dir, path) && Beside(dir, path))
  {
    var pattern := dir + "/**";
    assert pattern[|pattern| - 3..] == "/**" && pattern[..|pattern| - 3] == dir;
    assert pattern[|dir|] == '/';
    if dir < path.text && path.text[|dir|] == '/' {
      assert path.text[..|dir| + 1] == dir + "/";
    }
  }

  lemma TreePatternMatchesBeside()
    ensures MatchesPath("/src" + "/**", Path("/src2", Some("/"))) && !Inside("/src", Path("/src2", Some("/")))
  {
    assert "/src2"[..4] == "/src";
    TreePatternExactly("/src", Path("/src2", Some("/")));
  }

  // ----- stable sorting

  predicate Ordered(rules: seq<Rule>) {
    forall i, j :: 0 <= i < j < |rules| ==> rules[i].priority <= rules[j].priority
  }

  /** The rules of one priority, in order. */
  function OfPriority(rules: seq<Rule>, p: nat): seq<Rule> {
    if rules == [] then []
    else
      var last := rules[|rules| - 1];
      OfPriority(rules[..|rules| - 1], p) + if last.priority == p then [last] else []
  }

  /** `after` is `before` in priority order, with rules of equal priority in their old order. */
  ghost predicate StablySorted(before: seq<Rule>, after: seq<Rule>) {
    Ordered(after) && forall p :: OfPriority(after, p) == OfPriority(before, p)
  }

  lemma {:induction false} OfPriorityConcat(a: seq<Rule>, b: seq<Rule>, p: nat)
    ensures OfPriority(a + b, p) == OfPriority(a, p) + OfPriority(b, p)
  {
    if b == [] {
      assert a + b == a;
    } else {
      OfPriorityConcat(a, b[..|b| - 1], p);
      assert (a + b)[..|a + b| - 1] == a + b[..|b| - 1];
    }
  }

  lemma {:induction false} OfPriorityHolds(rules: seq<Rule>, p: nat)
    ensures forall r :: r in OfPriority(rules, p) <==> r in rules && r.priority == p
  {
    if rules != [] {
      OfPriorityHolds(rules[..|rules| - 1], p);
      assert rules == rules[..|rules| - 1] + [rules[|rules| - 1]];
    }
  }

  /** The last rule of a nonempty ordered list is the last of the highest priority number in it. */
  lemma LastIsHighest(rules: seq<Rule>, r: Rule)
    requires Ordered(rules) && rules != [] && r in rules
    ensures r.priority <= rules[|rules| - 1].priority
  {
  }

  /** There is one way to sort stably. */
  lemma {:induction false} StableSortUnique(a: seq<Rule>, b: seq<Rule>)
    requires Ordered(a) && Ordered(b) && forall p :: OfPriority(a, p) == OfPriority(b, p)
    ensures a == b
    decreases |a|
  {
    if a == [] && b == [] {
    } else if a == [] || b == [] {
      var r := if a == [] then b[|b| - 1] else a[|a| - 1];
      OfPriorityHolds(a, r.priority);
      OfPriorityHolds(b, r.priority);
    } else {
      var m, n := |a| - 1, |b| - 1;
      var x, y := a[m], b[n];
      SameLast(a, b);
      forall p ensures OfPriority(a[..m], p) == OfPriority(b[..n], p) {
        assert OfPriority(a, p) == OfPriority(b, p);
        var tail := if x.priority == p then [x] else [];
        assert OfPriority(a, p) == OfPriority(a[..m], p) + tail && OfPriority(b, p) == OfPriority(b[..n], p) + tail;
        assert OfPriority(a, p)[..|OfPriority(a, p)| - |tail|] == OfPriority(a[..m], p);
        assert OfPriority(b, p)[..|OfPriority(b, p)| - |tail|] == OfPriority(b[..n], p);
      }
      StableSortUnique(a[..m], b[..n]);
      assert a == a[..m] + [x] && b == b[..n] + [y];
    }
  }

  lemma SameLast(a: seq<Rule>, b: seq<Rule>)
    requires Ordered(a) && Ordered(b) && a != [] && b != [] && forall p :: OfPriority(a, p) == OfPriority(b, p)
    ensures a[|a| - 1] == b[|b| - 1]
  {
    var x, y := a[|a| - 1], b[|b| - 1];
    OfPriorityHolds(a, x.priority);
    OfPriorityHolds(b, x.priority);
    OfPriorityHolds(a, y.priority);
    OfPriorityHolds(b, y.priority);
    assert x in OfPriority(a, x.priority) && y in OfPriority(b, y.priority);
    LastIsHighest(b, x);
    LastIsHighest(a, y);
    var all := OfPriority(a, x.priority);
    assert all[|all| - 1] == x && OfPriority(b, x.priority)[|all| - 1] == y;
  }

  /** Where `sort_by_key` leaves a rule that comes after the sorted ones. */
  function Insert(sorted: seq<Rule>, r: Rule): seq<Rule> {
    if sorted == [] || sorted[|sorted| - 1].priority <= r.priority then sorted + [r]
    else Insert(sorted[..|sorted| - 1], r) + [sorted[|sorted| - 1]]
  }

  function Sorted(rules: seq<Rule>): seq<Rule> {
    if rules == [] then [] else Insert(Sorted(rules[..|rules| - 1]), rules[|rules| - 1])
  }

  lemma {:induction false} InsertHolds(sorted: seq<Rule>, r: Rule, x: Rule)
    ensures x in Insert(sorted, r) <==> x == r || x in sorted
  {
    if sorted != [] && sorted[|sorted| - 1].priority > r.priority {
      var n := |sorted| - 1;
      InsertHolds(sorted[..n], r, x);
      assert sorted == sorted[..n] + [sorted[n]];
    }
  }

  lemma OrderedPush(rules: seq<Rule>, r: Rule)
    requires Ordered(rules) && forall x :: x in rules ==> x.priority <= r.priority
    ensures Ordered(rules + [r])
  {
    forall i | 0 <= i < |rules| ensures rules[i].priority <= r.priority {
      assert rules[i] in rules;
    }
  }

  lemma {:induction false} InsertKeepsOrder(sorted: seq<Rule>, r: Rule)
    requires Ordered(sorted)
    ensures Ordered(Insert(sorted, r))
  {
    if sorted == [] || sorted[|sorted| - 1].priority <= r.priority {
      OrderedPush(sorted, r);
    } else {
      var n := |sorted| - 1;
      InsertKeepsOrder(sorted[..n], r);
      forall x | x in Insert(sorted[..n], r) ensures x.priority <= sorted[n].priority {
        InsertHolds(sorted[..n], r, x);
      }
      OrderedPush(Insert(sorted[..n], r), sorted[n]);
    }
  }

  lemma {:induction false} InsertIsStable(sorted: seq<Rule>, r: Rule, p: nat)
    requires Ordered(sorted)
    ensures OfPriority(Insert(sorted, r), p) == OfPriority(sorted + [r], p)
  {
    assert (sorted + [r])[..|sorted|] == sorted;
    if sorted != [] && sorted[|sorted| - 1].priority > r.priority {
      var n := |sorted| - 1;
      InsertIsStable(sorted[..n], r, p);
      assert (sorted[..n] + [r])[..n] == sorted[..n];
      var t := Insert(sorted[..n], r);
      assert (t + [sorted[n]])[..|t|] == t;
    }
  }

  lemma {:induction false} SortedIsStable(rules: seq<Rule>)
    ensures StablySorted(rules, Sorted(rules))
  {
    if rules != [] {
      var n := |rules| - 1;
      SortedIsStable(rules[..n]);
      InsertKeepsStable(rules[..n], Sorted(rules[..n]), rules[n]);
      assert rules == rules[..n] + [rules[n]];
    }
  }

  lemma InsertKeepsStable(rules: seq<Rule>, sorted: seq<Rule>, rule: Rule)
    requires StablySorted(rules, sorted)
    ensures StablySorted(rules + [rule], Insert(sorted, rule))
  {
    hide OfPriority, Insert;
    InsertKeepsOrder(sorted, rule);
    forall p ensures OfPriority(Insert(sorted, rule), p) == OfPriority(rules + [rule], p) {
      InsertIsStable(sorted, rule, p);
      OfPriorityConcat(sorted, [rule], p);
      OfPriorityConcat(rules, [rule], p);
    }
  }

  /** Sorting what was sorted before together with a new batch is sorting everything at once. */
  lemma BatchesDoNotMatter(held: seq<Rule>, batch: seq<Rule>)
    ensures Sorted(Sorted(held) + batch) == Sorted(held + batch)
  {
    hide Sorted;
    SortedIsStable(held);
    SortedIsStable(Sorted(held) + batch);
    SortedIsStable(held + batch);
    forall p ensures OfPriority(Sorted(Sorted(held) + batch), p) == OfPriority(Sorted(held + batch), p) {
      OfPriorityConcat(Sorted(held), batch, p);
      OfPriorityConcat(held, batch, p);
    }
    StableSortUnique(Sorted(Sorted(held) + batch), Sorted(held + batch));
  }

  // ----- the first match is the best

  /** The first rule of a list that matches. */
  function FirstOf(rules: seq<Rule>, tool: string, path: Option<Path>): Option<Rule> {
    if rules == [] then None
    else
      var first, last := FirstOf(rules[..|rules| - 1], tool, path), rules[|rules| - 1];
      if first.Some? then first else if Matches(last, tool, path) then Some(last) else None
  }

  /** The rule at `k` is the earliest of the matching rules with the lowest priority number. */
  predicate BestAt(rules: seq<Rule>, tool: string, path: Option<Path>, k: nat) {
    && k < |rules| && Matches(rules[k], tool, path)
    && forall j :: 0 <= j < |rules| && Matches(rules[j], tool, path) ==>
         rules[k].priority < rules[j].priority || (rules[k].priority == rules[j].priority && k <= j)
  }

  /** `r` beats what has matched so far. */
  predicate Beats(r: Rule, best: Option<Rule>, tool: string, path: Option<Path>) {
    Matches(r, tool, path) && (best.Some? ==> r.priority < best.value.priority)
  }

  function BestOf(rules: seq<Rule>, tool: string, path: Option<Path>): Option<Rule> {
    if rules == [] then None
    else
      var best, last := BestOf(rules[..|rules| - 1], tool, path), rules[|rules| - 1];
      if Beats(last, best, tool, path) then Some(last) else best
  }

  lemma BestStays(rules: seq<Rule>, r: Rule, tool: string, path: Option<Path>, k: nat)
    requires BestAt(rules, tool, path, k) && !Beats(r, Some(rules[k]), tool, path)
    ensures BestAt(rules + [r], tool, path, k)
  {
    hide Matches;
  }

  lemma BestComes(rules: seq<Rule>, r: Rule, tool: string, path: Option<Path>, best: Option<Rule>)
    requires Beats(r, best, tool, path)
    requires forall j :: 0 <= j < |rules| && Matches(rules[j], tool, path) ==>
               best.Some? && best.value.priority <= rules[j].priority
    ensures BestAt(rules + [r], tool, path, |rules|)
  {
    hide Matches;
  }

  lemma {:induction false} BestOfIs(rules: seq<Rule>, tool: string, path: Option<Path>) returns (k: nat)
    ensures match BestOf(rules, tool, path)
            case None => forall j :: 0 <= j < |rules| ==> !Matches(rules[j], tool, path)
            case Some(r) => BestAt(rules, tool, path, k) && rules[k] == r
  {
    k := 0;
    if rules != [] {
      hide Matches;
      var n := |rules| - 1;
      var front, last := rules[..n], rules[n];
      assert rules == front + [last];
      k := BestOfIs(front, tool, path);
      var best := BestOf(front, tool, path);
      if Beats(last, best, tool, path) {
        BestComes(front, last, tool, path, best);
        k := n;
      } else if best.Some? {
        BestStays(front, last, tool, path, k);
      }
    }
  }

  lemma {:induction false} FirstIsIn(rules: seq<Rule>, tool: string, path: Option<Path>)
    ensures FirstOf(rules, tool, path).Some? ==> FirstOf(rules, tool, path).value in rules
  {
    if rules != [] {
      FirstIsIn(rules[..|rules| - 1], tool, path);
    }
  }

  lemma {:induction false} FirstAfterInsert(sorted: seq<Rule>, r: Rule, tool: string, path: Option<Path>)
    requires Ordered(sorted)
    ensures var first := FirstOf(sorted, tool, path);
            FirstOf(Insert(sorted, r), tool, path) == if Beats(r, first, tool, path) then Some(r) else first
  {
    hide Matches;
    var n := |sorted| - 1;
    if sorted == [] || sorted[n].priority <= r.priority {
      FirstIsIn(sorted, tool, path);
      assert (sorted + [r])[..|sorted|] == sorted;
    } else {
      FirstAfterInsert(sorted[..n], r, tool, path);
      FirstIsIn(sorted[..n], tool, path);
      var t := Insert(sorted[..n], r);
      assert (t + [sorted[n]])[..|t|] == t;
    }
  }

  /** In a stably sorted list the first match is the best of the rules as they were added. */
  lemma {:induction false} FirstIsBest(rules: seq<Rule>, tool: string, path: Option<Path>)
    ensures FirstOf(Sorted(rules), tool, path) == BestOf(rules, tool, path)
  {
    if rules != [] {
      var n := |rules| - 1;
      FirstIsBest(rules[..n], tool, path);
      SortedIsStable(rules[..n]);
      FirstAfterInsert(Sorted(rules[..n]), rules[n], tool, path);
    }
  }

  /** The rule at `k` is meant for the request, and no rule of higher rank is. */
  ghost predicate RanksFirst(rules: seq<Rule>, tool: string, path: Option<Path>, k: nat) {
    && k < |rules| && Meant(rules[k], tool, path)
    && forall j :: 0 <= j < |rules| && Meant(rules[j], tool, path) ==>
         rules[k].priority < rules[j].priority || (rules[k].priority == rules[j].priority && k <= j)
  }

  /** What the engine should answer: what the rule of highest rank says, or to ask if no rule is meant. */
  ghost predicate Answers(rules: seq<Rule>, tool: string, path: Option<Path>, d: Decision) {
    || (d == Decision(Ask, None, None) && forall j :: 0 <= j < |rules| ==> !Meant(rules[j], tool, path))
    || exists k: nat :: RanksFirst(rules, tool, path, k)
                        && d == Decision(rules[k].action, Some(rules[k].id), rules[k].description)
  }

  lemma DecidesIsAnswers(rules: seq<Rule>, tool: string, path: Option<Path>, d: Decision)
    ensures Decides(rules, tool, path, d) <==> Answers(rules, tool, path, d)
  {
    hide Matches, Meant;
    forall j | 0 <= j < |rules| ensures Matches(rules[j], tool, path) <==> Meant(rules[j], tool, path) {
      MatchesExactly(rules[j], tool, path);
    }
    forall k: nat ensures BestAt(rules, tool, path, k) <==> RanksFirst(rules, tool, path, k) {}
  }

  /** What the engine answers, in terms of the rules as they were added. */
  ghost predicate Decides(rules: seq<Rule>, tool: string, path: Option<Path>, d: Decision) {
    || (d == Decision(Ask, None, None) && forall j :: 0 <= j < |rules| ==> !Matches(rules[j], tool, path))
    || exists k: nat :: BestAt(rules, tool, path, k) && d == Decision(rules[k].action, Some(rules[k].id), rules[k].description)
  }

  /** The answer is determined. */
  lemma DecidesOnce(rules: seq<Rule>, tool: string, path: Option<Path>, a: Decision, b: Decision)
    requires Decides(rules, tool, path, a) && Decides(rules, tool, path, b)
    ensures a == b
  {
    hide Matches;
    forall j: nat, k: nat | BestAt(rules, tool, path, j) && BestAt(rules, tool, path, k) ensures j == k {}
  }

  // ----- the engine

  function BuiltinRule(id: string, tool: string, action: Action, priority: nat, description: string): Rule {
    Rule(id, tool, None, action, priority, Some(description), Builtin)
  }

  const DEFAULTS := [
    BuiltinRule("builtin-read-allow", "Read", Allow, 100, "Allow reading files"),
    BuiltinRule("builtin-glob-allow", "Glob", Allow, 100, "Allow file globbing"),
    BuiltinRule("builtin-grep-allow", "Grep", Allow, 100, "Allow grep search"),
    BuiltinRule("builtin-bash-ask", "Bash", Ask, 200, "Ask for bash commands"),
    BuiltinRule("builtin-write-ask", "Write", Ask, 200, "Ask for file writes"),
    BuiltinRule("builtin-edit-ask", "Edit", Ask, 200, "Ask for file edits")]

  lemma DefaultsAreSorted()
    ensures Sorted(DEFAULTS) == DEFAULTS
  {
    SortedIsStable(DEFAULTS);
    hide Sorted, OfPriority;
    assert Ordered(DEFAULTS);
    StableSortUnique(Sorted(DEFAULTS), DEFAULTS);
  }

  class PermissionEngine {
    var rules: seq<Rule>
    ghost var added: seq<Rule>  // every rule, in the order in which they were added

    ghost predicate Valid()
      reads this
    {
      rules == Sorted(added)
    }

    constructor ()
      ensures Valid() && added == DEFAULTS
    {
      DefaultsAreSorted();
      rules, added := DEFAULTS, DEFAULTS;
    }

    constructor WithRules(rules: seq<Rule>)
      ensures Valid() && added == rules
    {
      this.rules, added := Sorted(rules), rules;
    }

    method AddRules(batch: seq<Rule>)
      requires Valid()
      modifies this
      ensures Valid() && added == old(added) + batch
    {
      BatchesDoNotMatter(added, batch);
      rules := rules + batch;
      rules := Sorted(rules);
      added := added + batch;
    }

    method Evaluate(tool: string, path: Option<Path>) returns (d: Decision)
      requires Valid()
      ensures Answers(added, tool, path, d)
    {
      hide Sorted, Matches, Answers;
      FirstIsBest(added, tool, path);
      ghost var k := BestOfIs(added, tool, path);
      for i := 0 to |rules|
        invariant FirstOf(rules[..i], tool, path).None?
      {
        var rule := rules[i];
        assert rules[..i + 1][..i] == rules[..i];
        if Matches(rule, tool, path) {
          FirstStays(rules, tool, path, i + 1);
          d := Decision(rule.action, Some(rule.id), rule.description);
          DecidesIsAnswers(added, tool, path, d);
          return;
        }
      }
      assert rules[..|rules|] == rules;
      d := Decision(Ask, None, None);
      DecidesIsAnswers(added, tool, path, d);
    }
  }

  // ----- a new engine

  /** A built-in rule is meant for its own tool only. */
  lemma BuiltinIsMeant(rule: Rule, tool: string, path: Option<Path>)
    requires rule.pathPattern.None? && rule.toolPattern != "" && rule.toolPattern[|rule.toolPattern| - 1] != '*'
    ensures Meant(rule, tool, path) <==> tool == rule.toolPattern
  {
    forall prefix ensures rule.toolPattern != prefix + "*" { assert (prefix + "*")[|prefix|] == '*'; }
  }

  function DefaultFor(tool: string): Decision {
    match tool
    case "Read" => Decision(Allow, Some("builtin-read-allow"), Some("Allow reading files"))
    case "Glob" => Decision(Allow, Some("builtin-glob-allow"), Some("Allow file globbing"))
    case "Grep" => Decision(Allow, Some("builtin-grep-allow"), Some("Allow grep search"))
    case "Bash" => Decision(Ask, Some("builtin-bash-ask"), Some("Ask for bash commands"))
    case "Write" => Decision(Ask, Some("builtin-write-ask"), Some("Ask for file writes"))
    case "Edit" => Decision(Ask, Some("builtin-edit-ask"), Some("Ask for file edits"))
    case _ => Decision(Ask, None, None)
  }

  /** What a new engine answers for each tool, with any path or none. */
  lemma NewEngineAnswers(tool: string, path: Option<Path>, d: Decision)
    requires Answers(DEFAULTS, tool, path, d)
    ensures d == DefaultFor(tool)
  {
    forall k | 0 <= k < |DEFAULTS| ensures Meant(DEFAULTS[k], tool, path) <==> tool == DEFAULTS[k].toolPattern {
      BuiltinIsMeant(DEFAULTS[k], tool, path);
    }
    DefaultsSay();
    if k: nat :| RanksFirst(DEFAULTS, tool, path, k) && d == Decided(DEFAULTS[k]) {
      assert tool == DEFAULTS[k].toolPattern;
    } else {
      assert forall k :: 0 <= k < |DEFAULTS| ==> tool != DEFAULTS[k].toolPattern;
      assert tool != DEFAULTS[0].toolPattern && tool != DEFAULTS[1].toolPattern && tool != DEFAULTS[2].toolPattern;
      assert tool != DEFAULTS[3].toolPattern && tool != DEFAULTS[4].toolPattern && tool != DEFAULTS[5].toolPattern;
    }
  }

  function Decided(rule: Rule): Decision {
    Decision(rule.action, Some(rule.id), rule.description)
  }

  lemma DefaultsSay()
    ensures |DEFAULTS| == 6 && forall k :: 0 <= k < 6 ==> Decided(DEFAULTS[k]) == DefaultFor(DEFAULTS[k].toolPattern)
    ensures DEFAULTS[0].toolPattern == "Read" && DEFAULTS[1].toolPattern == "Glob" && DEFAULTS[2].toolPattern == "Grep"
    ensures DEFAULTS[3].toolPattern == "Bash" && DEFAULTS[4].toolPattern == "Write" && DEFAULTS[5].toolPattern == "Edit"
  {
    assert Decided(DEFAULTS[0]) == DefaultFor("Read") && Decided(DEFAULTS[1]) == DefaultFor("Glob");
    assert Decided(DEFAULTS[2]) == DefaultFor("Grep") && Decided(DEFAULTS[3]) == DefaultFor("Bash");
    assert Decided(DEFAULTS[4]) == DefaultFor("Write") && Decided(DEFAULTS[5]) == DefaultFor("Edit");
  }

  lemma {:induction false} FirstStays(rules: seq<Rule>, tool: string, path: Option<Path>, i: nat)
    requires i <= |rules| && FirstOf(rules[..i], tool, path).Some?
    ensures FirstOf(rules, tool, path) == FirstOf(rules[..i], tool, path)
    decreases |rules|
  {
    if i < |rules| {
      assert rules[..|rules| - 1][..i] == rules[..i];
      FirstStays(rules[..|rules| - 1], tool, path, i);
    } else {
      assert rules[..i] == rules;
    }
  }
}

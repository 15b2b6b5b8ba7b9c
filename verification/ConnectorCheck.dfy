/** The connector check, and the indexer's own choice of repositories that it must agree with. */
module ConnectorCheck {
  import opened Wrappers

  const SHOWN := 10

  datatype DiscoveredRepo = DiscoveredRepo(fullName: string, archived: bool, empty: bool)

  /** The patterns of a connector, with the library's matching of a name against a pattern. */
  datatype Patterns = Patterns(included: seq<string>, excluded: seq<string>, fnmatch: (string, string) -> bool)

  /** How the discovery ends after the repositories it yields. */
  datatype Ending = Exhausted | TimedOut | Refused(status: nat) | Unreachable

  datatype Reason =
    | NoToken | ProviderRejected | DidNotAnswer | Status(status: nat) | CouldNotReach | NoRepositories

  datatype CheckResult =
    | Failed(reason: Reason)
    | NoneKept(discovered: nat, skipped: nat, truncated: bool, excluded: seq<string>)
    | Passed(discovered: nat, matched: nat, skipped: nat, truncated: bool, sample: seq<string>, excluded: seq<string>)

  // ── the indexer's choice ─────────────────────────────────────────

  predicate IsIndexable(repo: DiscoveredRepo) { !repo.archived && !repo.empty }

  /** The part after the last slash. */
  function ShortName(s: string): (r: string)
    ensures '/' !in r && |r| <= |s| && r == s[|s| - |r|..]
    ensures |r| < |s| ==> s[|s| - |r| - 1] == '/'
  {
    if '/' !in s then s else ShortName(s[1..])
  }

  predicate Hit(p: Patterns, name: string, pattern: string) {
    p.fnmatch(name, pattern) || p.fnmatch(ShortName(name), pattern)
  }

  predicate Selected(p: Patterns, name: string) {
    && (exists pattern :: pattern in p.included && Hit(p, name, pattern))
    && !(exists pattern :: pattern in p.excluded && Hit(p, name, pattern))
  }

  /** Whether the indexer would bind this repository. */
  predicate Matches(p: Patterns, repo: DiscoveredRepo) { IsIndexable(repo) && Selected(p, repo.fullName) }

  // ── counting by specification ────────────────────────────────────

  function Filter(repos: seq<DiscoveredRepo>, keep: DiscoveredRepo -> bool): seq<DiscoveredRepo> {
    if repos == [] then []
    else Filter(repos[..|repos| - 1], keep) + if keep(repos[|repos| - 1]) then [repos[|repos| - 1]] else []
  }

  function FirstNames(repos: seq<DiscoveredRepo>): seq<string> {
    var n := if |repos| < SHOWN then |repos| else SHOWN;
    seq(n, i requires 0 <= i < n => repos[i].fullName)
  }

  function Kept(p: Patterns, repos: seq<DiscoveredRepo>): seq<DiscoveredRepo> { Filter(repos, r => Matches(p, r)) }

  function Unindexable(repos: seq<DiscoveredRepo>): seq<DiscoveredRepo> { Filter(repos, r => !IsIndexable(r)) }

  function PatternExcluded(p: Patterns, repos: seq<DiscoveredRepo>): seq<DiscoveredRepo> {
    Filter(repos, r => IsIndexable(r) && !Selected(p, r.fullName))
  }

  /** `include` as the check reads it: no pattern at all means every repository. */
  function Effective(p: Patterns): Patterns { if p.included == [] then p.(included := ["*"]) else p }

  /** How many repositories are looked at: the limit is looked at after each, so at least one if there is one. */
  function ExaminedCount(found: nat, limit: int): (n: nat)
    ensures n <= found
    ensures limit > 0 ==> n <= limit
    ensures n == 0 <==> found == 0
  {
    if found == 0 then 0
    else if limit < 1 then 1
    else if found < limit then found
    else limit
  }

  predicate Truncated(found: nat, limit: int) { found > 0 && ExaminedCount(found, limit) >= limit }

  function EndReason(ending: Ending): Reason
    requires !ending.Exhausted?
  {
    match ending
    case TimedOut => DidNotAnswer
    case Refused(status) => Status(status)
    case Unreachable => CouldNotReach
  }

  /** What the check is to report for a provider that yields these repositories and then ends like this. */
  function Report(p: Patterns, found: seq<DiscoveredRepo>, ending: Ending, limit: int): CheckResult {
    var examined, truncated := found[..ExaminedCount(|found|, limit)], Truncated(|found|, limit);
    if !truncated && !ending.Exhausted? then Failed(EndReason(ending))
    else if examined == [] then Failed(NoRepositories)
    else if Kept(p, examined) == [] then
      NoneKept(|examined|, |Unindexable(examined)|, truncated, FirstNames(PatternExcluded(p, examined)))
    else
      Passed(|examined|, |Kept(p, examined)|, |Unindexable(examined)|, truncated,
             FirstNames(Kept(p, examined)), FirstNames(PatternExcluded(p, examined)))
  }

  lemma {:induction false} FirstNamesStep(repos: seq<DiscoveredRepo>, repo: DiscoveredRepo)
    ensures FirstNames(repos + [repo]) == FirstNames(repos) + if |repos| < SHOWN then [repo.fullName] else []
  {
  }

  lemma {:induction false} NothingExamined(p: Patterns)
    ensures Kept(p, []) == [] && Unindexable([]) == [] && PatternExcluded(p, []) == [] && FirstNames([]) == []
  {
  }

  lemma {:induction false} FirstNamesCount(repos: seq<DiscoveredRepo>)
    ensures |FirstNames(repos)| == if |repos| < SHOWN then |repos| else SHOWN
  {
  }

  lemma {:induction false} OneMoreExamined(p: Patterns, found: seq<DiscoveredRepo>, n: nat)
    requires n < |found|
    ensures var repo, kept := found[n], Kept(p, found[..n]);
            Kept(p, found[..n + 1]) == if Matches(p, repo) then kept + [repo] else kept
    ensures var repo, skipped := found[n], Unindexable(found[..n]);
            Unindexable(found[..n + 1]) == if !IsIndexable(repo) then skipped + [repo] else skipped
    ensures var repo, out := found[n], PatternExcluded(p, found[..n]);
            PatternExcluded(p, found[..n + 1]) ==
            if IsIndexable(repo) && !Selected(p, repo.fullName) then out + [repo] else out
  {
    assert found[..n + 1][..n] == found[..n];
  }

  /** The counting loop. `token` and `built` say whether there is a token and the provider's settings are
      complete. */
  method CheckConnector(
      token: bool, built: bool, patterns: Patterns, found: seq<DiscoveredRepo>, ending: Ending, limit: int)
    returns (r: CheckResult)
    ensures r == if !token then Failed(NoToken)
                 else if !built then Failed(ProviderRejected)
                 else Report(Effective(patterns), found, ending, limit)
  {
    hide Filter, Kept, Unindexable, PatternExcluded, FirstNames, Selected;
    NothingExamined(Effective(patterns));
    var p := if patterns.included == [] then patterns.(included := ["*"]) else patterns;
    if !token { return Failed(NoToken); }
    if !built { return Failed(ProviderRejected); }
    var discovered, matched, skipped := 0, 0, 0;
    var sample: seq<string>, excluded: seq<string> := [], [];
    var truncated := false;
    while discovered < |found| && !truncated
      invariant discovered <= |found|
      invariant matched == |Kept(p, found[..discovered])| && sample == FirstNames(Kept(p, found[..discovered]))
      invariant skipped == |Unindexable(found[..discovered])|
      invariant excluded == FirstNames(PatternExcluded(p, found[..discovered]))
      invariant truncated <==> discovered > 0 && discovered >= limit
      invariant truncated ==> discovered == ExaminedCount(|found|, limit)
      decreases |found| - discovered
    {
      var repo := found[discovered];
      OneMoreExamined(p, found, discovered);
      FirstNamesStep(Kept(p, found[..discovered]), repo);
      FirstNamesStep(PatternExcluded(p, found[..discovered]), repo);
      FirstNamesCount(Kept(p, found[..discovered]));
      FirstNamesCount(PatternExcluded(p, found[..discovered]));
      discovered := discovered + 1;
      if !IsIndexable(repo) {
        skipped := skipped + 1;
      } else if Selected(p, repo.fullName) {
        matched := matched + 1;
        if |sample| < SHOWN { sample := sample + [repo.fullName]; }
      } else if |excluded| < SHOWN {
        excluded := excluded + [repo.fullName];
      }
      truncated := discovered >= limit;
    }
    if !truncated && !ending.Exhausted? { return Failed(EndReason(ending)); }
    if discovered == 0 { return Failed(NoRepositories); }
    if matched == 0 { return NoneKept(discovered, skipped, truncated, excluded); }
    return Passed(discovered, matched, skipped, truncated, sample, excluded);
  }

  // ── what the counts mean ─────────────────────────────────────────

  /** Every repository looked at is counted once: as one the indexer would bind, as one that cannot be
      indexed, or as one the patterns leave out. */
  lemma {:induction false} EveryRepositoryIsCountedOnce(p: Patterns, repos: seq<DiscoveredRepo>)
    ensures |Kept(p, repos)| + |Unindexable(repos)| + |PatternExcluded(p, repos)| == |repos|
    ensures forall r :: r in repos ==> (r in Kept(p, repos) <==> Matches(p, r))
  {
    if repos != [] {
      EveryRepositoryIsCountedOnce(p, repos[..|repos| - 1]);
      assert repos == repos[..|repos| - 1] + [repos[|repos| - 1]];
      OnlyKept(p, repos);
      OnlyKept(p, repos[..|repos| - 1]);
    }
  }

  lemma {:induction false} OnlyKept(p: Patterns, repos: seq<DiscoveredRepo>)
    ensures forall r :: r in Kept(p, repos) ==> r in repos && Matches(p, r)
  {
    if repos != [] {
      OnlyKept(p, repos[..|repos| - 1]);
      assert repos == repos[..|repos| - 1] + [repos[|repos| - 1]];
    }
  }

  /** A connector that passes the check binds at least one repository when it is indexed, and the numbers
      are those of the indexer's own choice. */
  lemma {:induction false} ThePassedCountIsTheIndexersCount(
      p: Patterns, found: seq<DiscoveredRepo>, ending: Ending, limit: int)
    ensures var r, examined := Report(p, found, ending, limit), found[..ExaminedCount(|found|, limit)];
            && (r.Passed? <==>
                  && (ending.Exhausted? || Truncated(|found|, limit))
                  && exists repo :: repo in examined && Matches(p, repo))
            && (r.Passed? ==>
                  && r.matched == |Kept(p, examined)| > 0 && r.discovered == |examined|
                  && r.discovered == r.matched + r.skipped + |PatternExcluded(p, examined)|
                  && (limit > 0 ==> r.discovered <= limit)
                  && (!r.truncated ==> examined == found))
  {
    var examined := found[..ExaminedCount(|found|, limit)];
    EveryRepositoryIsCountedOnce(p, examined);
    OnlyKept(p, examined);
    if Kept(p, examined) != [] {
      assert Kept(p, examined)[0] in Kept(p, examined);
    }
  }

  /** The truncation flag is set although nothing was left out exactly when as many repositories exist as the
      limit allows (or a single one, under a limit that allows none). */
  lemma {:induction false} TruncatedYetCompleteExactlyWhen(found: seq<DiscoveredRepo>, limit: int)
    ensures Truncated(|found|, limit) && found[..ExaminedCount(|found|, limit)] == found <==>
            |found| > 0 && if limit < 1 then |found| == 1 else |found| == limit
  {
    var n := ExaminedCount(|found|, limit);
    assert found[..n] == found <==> n == |found| by {
      if n == |found| { assert found[..n] == found; }
    }
  }

  /** One repository, a limit of one: the check says its counts are a floor, and they are the total. */
  lemma {:induction false} ACompleteCheckCanSayTruncated(p: Patterns, repo: DiscoveredRepo)
    requires Matches(p, repo)
    ensures var r := Report(p, [repo], Exhausted, 1);
            r.Passed? && r.truncated && r.discovered == 1 && r.matched == 1 && r.skipped == 0
  {
    assert [repo][..1] == [repo] && [repo][..0] == [];
    EveryRepositoryIsCountedOnce(p, [repo]);
    assert repo in [repo];
    assert repo in Kept(p, [repo]);
  }
}

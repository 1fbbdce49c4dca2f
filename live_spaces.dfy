/**
 * The account poll of checkLiveSpaces.js (`checkLiveSpaces`): for each
 * followed account, open its profile, decide from the rendered divs whether
 * it hosts a live Space, join it by clicking the first "Listen live" div and
 * then "Start listening", and capture the stream descriptor.
 *
 * The browser is a `Browser` object that records what was navigated to and
 * clicked; what each profile page shows is a `PageView` given per account.
 */
module LiveSpaces {
  import opened Wrappers
  import opened Text
  import opened Interception

  /** Prefix that an account in the follow list may carry. */
  const AccountMarker: string := "@"
  /** Root that profile paths are appended to. */
  const SiteRoot: string := "https://x.com/"
  /** Exact trimmed text of the div that shows a live Space. */
  const LiveMarker: string := "Listen live"

  /** The account with one leading `@` removed (`substring(1)`). */
  function AccountName(account: string): (name: string)
    ensures if StartsWith(account, AccountMarker) then account == AccountMarker + name else name == account
  {
    if StartsWith(account, AccountMarker) then account[1..] else account
  }

  /** The profile page navigated to for an account. */
  function ProfileUrl(account: string): string {
    SiteRoot + AccountName(account)
  }

  /** The profile URL is the site root followed by the stripped name. */
  lemma ProfileUrlLayout(account: string)
    ensures StartsWith(ProfileUrl(account), SiteRoot)
    ensures ProfileUrl(account)[|SiteRoot|..] == AccountName(account)
  {
  }

  /** Exactly one `@` is removed, however many there are. */
  lemma AccountNameExamples()
    ensures AccountName("@@bob") == "@bob"
    ensures AccountName("@bob") == "bob"
    ensures AccountName("bob") == "bob"
    ensures AccountName("") == ""
  {
    assert "@@bob" == AccountMarker + "@bob";
    assert "@bob" == AccountMarker + "bob";
    assert "bob"[..1] == "b";
  }

  /** Two accounts share a profile page exactly when their names agree. */
  lemma ProfileUrlInjective(a: string, b: string)
    ensures ProfileUrl(a) == ProfileUrl(b) <==> AccountName(a) == AccountName(b)
  {
    ProfileUrlLayout(a);
    ProfileUrlLayout(b);
  }

  /** Classification: some div's trimmed text is exactly the live marker. */
  predicate HasLiveMarker(divs: seq<string>) {
    exists i :: 0 <= i < |divs| && divs[i] == LiveMarker
  }

  /** Containing the marker is not the same as being the marker. */
  lemma SubstringIsNotLive()
    ensures !HasLiveMarker(["Listen live now", "Not Listen live", "listen live"])
    ensures HasLiveMarker(["Host", "Listen live"])
  {
    var divs := ["Host", "Listen live"];
    assert divs[1] == LiveMarker;
  }

  /** The first div, in document order, whose text is the live marker. */
  function FirstMarker(divs: seq<string>): (k: Option<nat>)
    ensures k.Some? <==> HasLiveMarker(divs)
    ensures k.Some? ==> k.value < |divs| && divs[k.value] == LiveMarker
    ensures k.Some? ==> forall j :: 0 <= j < k.value ==> divs[j] != LiveMarker
    decreases |divs|
  {
    if |divs| == 0 then None
    else if divs[0] == LiveMarker then Some(0)
    else match FirstMarker(divs[1..])
      case None =>
        assert forall j :: 1 <= j < |divs| ==> divs[j] == divs[1..][j - 1];
        None
      case Some(k) => Some(k + 1)
  }

  /**
   * What one profile page shows: the divs read for classification, the divs
   * read again for the join, whether "Start listening" appears within the
   * five-second wait, and the events the capture listener sees once armed
   * (after the "Start listening" click).
   */
  datatype PageView = PageView(
    renderedDivs: seq<string>,
    divsAtJoin: seq<string>,
    startListeningShown: bool,
    responses: seq<Event>)

  /** A captured Space, tagged with the account as listed (with its `@`). */
  datatype LiveSpace = LiveSpace(account: string, hlsUrl: string, sessionId: string, shareUrl: Option<string>)

  function Tag(account: string, info: StreamInfo): LiveSpace {
    LiveSpace(account, info.hlsUrl, info.sessionId, info.shareUrl)
  }

  /** What happened on one account's page; `div` is the clicked div. */
  datatype Visit =
    | NotLive
    | MarkerGone
    | JoinTimedOut(div: nat)
    | NothingCaptured(div: nat)
    | Captured(div: nat, space: LiveSpace)

  /** One account's pass through the loop body. */
  function VisitAccount(account: string, view: PageView): (v: Visit)
    ensures v.NotLive? <==> !HasLiveMarker(view.renderedDivs)
    ensures v.MarkerGone? <==> HasLiveMarker(view.renderedDivs) && !HasLiveMarker(view.divsAtJoin)
    ensures !v.NotLive? && !v.MarkerGone? ==> Some(v.div) == FirstMarker(view.divsAtJoin)
    ensures v.JoinTimedOut? <==>
      HasLiveMarker(view.renderedDivs) && HasLiveMarker(view.divsAtJoin) && !view.startListeningShown
    ensures v.Captured? <==> !v.NotLive? && !v.MarkerGone? && !v.JoinTimedOut? && CaptureResult(view.responses).Some?
    ensures v.Captured? ==> v.space == Tag(account, CaptureResult(view.responses).value)
  {
    if !HasLiveMarker(view.renderedDivs) then NotLive
    else match FirstMarker(view.divsAtJoin)
      case None => MarkerGone
      case Some(d) =>
        if !view.startListeningShown then JoinTimedOut(d)
        else match CaptureResult(view.responses)
          case None => NothingCaptured(d)
          case Some(info) => Captured(d, Tag(account, info))
  }

  /** The clicks the browser receives on account number `i`. */
  datatype Click = ListenLive(account: nat, div: nat) | StartListening(account: nat)

  function VisitClicks(i: nat, v: Visit): seq<Click> {
    match v
    case NotLive => []
    case MarkerGone => []
    case JoinTimedOut(d) => [ListenLive(i, d)]
    case NothingCaptured(d) => [ListenLive(i, d), StartListening(i)]
    case Captured(d, _) => [ListenLive(i, d), StartListening(i)]
  }

  /** The call's result: the captured Spaces, or the account whose join wait threw. */
  datatype PollOutcome = Completed(spaces: seq<LiveSpace>) | Aborted(account: nat)

  /** Everything a run shows: its outcome and the browser's navigation and clicks. */
  datatype RunLog = RunLog(outcome: PollOutcome, visited: seq<string>, clicks: seq<Click>)

  /** The visit each account's page prescribes. */
  function Visits(accounts: seq<string>, views: seq<PageView>): (visits: seq<Visit>)
    requires |accounts| == |views|
    ensures |visits| == |accounts|
    ensures forall i :: 0 <= i < |accounts| ==> visits[i] == VisitAccount(accounts[i], views[i])
  {
    seq(|accounts|, i requires 0 <= i < |accounts| => VisitAccount(accounts[i], views[i]))
  }

  /** One more account polled after the run so far, which is final once failed. */
  function Advance(prev: RunLog, n: nat, account: string, v: Visit): RunLog {
    if prev.outcome.Aborted? then prev
    else
      var visited := prev.visited + [ProfileUrl(account)];
      var clicks := prev.clicks + VisitClicks(n, v);
      match v
      case JoinTimedOut(_) => RunLog(Aborted(n), visited, clicks)
      case Captured(_, space) => RunLog(Completed(prev.outcome.spaces + [space]), visited, clicks)
      case _ => RunLog(prev.outcome, visited, clicks)
  }

  /** The poll over the accounts, one after the other; a join timeout ends it. */
  function Poll(accounts: seq<string>, visits: seq<Visit>): RunLog
    requires |accounts| == |visits|
    decreases |accounts|
  {
    if |accounts| == 0 then RunLog(Completed([]), [], [])
    else
      var n := |accounts| - 1;
      Advance(Poll(accounts[..n], visits[..n]), n, accounts[n], visits[n])
  }

  /** The record one visit contributes: its capture, if any. */
  function CapturedBy(v: Visit): seq<LiveSpace> {
    if v.Captured? then [v.space] else []
  }

  /** Reference reading of the result: the captures of the visits, in order. */
  function Records(visits: seq<Visit>): seq<LiveSpace>
    decreases |visits|
  {
    if |visits| == 0 then [] else CapturedBy(visits[0]) + Records(visits[1..])
  }

  lemma {:induction false} RecordsAppend(visits: seq<Visit>, v: Visit)
    ensures Records(visits + [v]) == Records(visits) + CapturedBy(v)
    decreases |visits|
  {
    if |visits| == 0 {
      assert Records([v]) == CapturedBy(v) + Records([]);
    } else {
      assert (visits + [v])[1..] == visits[1..] + [v];
      RecordsAppend(visits[1..], v);
    }
  }

  /** Each record comes from a captured visit. */
  lemma {:induction false} RecordsComeFromCaptures(visits: seq<Visit>, s: LiveSpace)
    requires s in Records(visits)
    ensures exists j :: 0 <= j < |visits| && visits[j].Captured? && visits[j].space == s
    decreases |visits|
  {
    if s !in CapturedBy(visits[0]) {
      RecordsComeFromCaptures(visits[1..], s);
      var j :| 0 <= j < |visits[1..]| && visits[1..][j].Captured? && visits[1..][j].space == s;
      assert visits[j + 1] == visits[1..][j];
    } else {
      assert visits[0].Captured? && visits[0].space == s;
    }
  }

  /** A run that completes met no join timeout. */
  lemma {:induction false} CompletedMeansNoJoinTimeout(accounts: seq<string>, visits: seq<Visit>)
    requires |accounts| == |visits|
    requires Poll(accounts, visits).outcome.Completed?
    ensures forall j :: 0 <= j < |visits| ==> !visits[j].JoinTimedOut?
    decreases |accounts|
  {
    if |accounts| > 0 {
      var n := |accounts| - 1;
      CompletedMeansNoJoinTimeout(accounts[..n], visits[..n]);
      forall j | 0 <= j < n ensures !visits[j].JoinTimedOut? {
        assert visits[..n][j] == visits[j];
      }
    }
  }

  /** A run that fails, fails at the first account whose join timed out. */
  lemma {:induction false} AbortedAtFirstJoinTimeout(accounts: seq<string>, visits: seq<Visit>)
    requires |accounts| == |visits|
    requires Poll(accounts, visits).outcome.Aborted?
    ensures var k := Poll(accounts, visits).outcome.account;
      k < |visits| && visits[k].JoinTimedOut? && forall j :: 0 <= j < k ==> !visits[j].JoinTimedOut?
    decreases |accounts|
  {
    var n := |accounts| - 1;
    assert forall j :: 0 <= j < n ==> visits[..n][j] == visits[j];
    if Poll(accounts[..n], visits[..n]).outcome.Aborted? {
      AbortedAtFirstJoinTimeout(accounts[..n], visits[..n]);
    } else {
      CompletedMeansNoJoinTimeout(accounts[..n], visits[..n]);
    }
  }

  /**
   * The run fails at account `k` exactly when `k` is the first account whose
   * "Start listening" wait times out.
   */
  lemma PollAbortsAtFirstJoinTimeout(accounts: seq<string>, visits: seq<Visit>, k: nat)
    requires |accounts| == |visits|
    ensures Poll(accounts, visits).outcome == Aborted(k) <==>
      k < |visits| && visits[k].JoinTimedOut? && forall j :: 0 <= j < k ==> !visits[j].JoinTimedOut?
  {
    var outcome := Poll(accounts, visits).outcome;
    if outcome.Completed? {
      CompletedMeansNoJoinTimeout(accounts, visits);
    } else {
      AbortedAtFirstJoinTimeout(accounts, visits);
      var k' := outcome.account;
      if k < k' {
      } else if k' < k {
      }
    }
  }

  /** The records of a non-empty list of visits end with those of its last visit. */
  lemma RecordsSnoc(visits: seq<Visit>)
    requires |visits| > 0
    ensures Records(visits) == Records(visits[..|visits| - 1]) + CapturedBy(visits[|visits| - 1])
  {
    var n := |visits| - 1;
    assert visits == visits[..n] + [visits[n]];
    RecordsAppend(visits[..n], visits[n]);
  }

  /** A completed run so far gains the visit's record unless its join times out. */
  lemma AdvanceRecords(prev: RunLog, n: nat, account: string, v: Visit)
    requires prev.outcome.Completed? && !v.JoinTimedOut?
    ensures Advance(prev, n, account, v).outcome == Completed(prev.outcome.spaces + CapturedBy(v))
  {
  }

  /** A run without a join timeout returns the captures of all accounts, in order. */
  lemma {:induction false} PollCollectsRecords(accounts: seq<string>, visits: seq<Visit>)
    requires |accounts| == |visits|
    requires forall j :: 0 <= j < |visits| ==> !visits[j].JoinTimedOut?
    ensures Poll(accounts, visits).outcome == Completed(Records(visits))
    decreases |accounts|
  {
    if |accounts| > 0 {
      var n := |accounts| - 1;
      forall j | 0 <= j < n ensures !visits[..n][j].JoinTimedOut? {
        assert visits[..n][j] == visits[j];
      }
      PollCollectsRecords(accounts[..n], visits[..n]);
      var prev := Poll(accounts[..n], visits[..n]);
      assert Poll(accounts, visits) == Advance(prev, n, accounts[n], visits[n]);
      AdvanceRecords(prev, n, accounts[n], visits[n]);
      RecordsSnoc(visits);
    }
  }

  /** Every captured record is tagged with an account of the list and carries a usable stream. */
  lemma RecordsAreTagged(accounts: seq<string>, views: seq<PageView>)
    requires |accounts| == |views|
    ensures forall s :: s in Records(Visits(accounts, views)) ==>
      s.account in accounts && Contains(s.hlsUrl, ProviderMarker) && s.sessionId != ""
  {
    var visits := Visits(accounts, views);
    forall s | s in Records(visits)
      ensures s.account in accounts && Contains(s.hlsUrl, ProviderMarker) && s.sessionId != ""
    {
      RecordsComeFromCaptures(visits, s);
      var j :| 0 <= j < |visits| && visits[j].Captured? && visits[j].space == s;
      var trace := views[j].responses;
      CaptureMatchesFirstDecisive(trace);
      var k := FirstDecisive(trace).value;
      assert s == Tag(accounts[j], Extract(trace[k].response));
    }
  }

  /**
   * Each Space a completed run returns is the capture of one listed account's
   * page, tagged with that account as listed and carrying the descriptor's
   * three fields unchanged.
   */
  lemma CompletedSpaceIsItsAccountsCapture(accounts: seq<string>, views: seq<PageView>, k: nat)
    requires |accounts| == |views|
    requires Poll(accounts, Visits(accounts, views)).outcome.Completed?
    requires k < |Poll(accounts, Visits(accounts, views)).outcome.spaces|
    ensures var s := Poll(accounts, Visits(accounts, views)).outcome.spaces[k];
      exists j :: 0 <= j < |accounts| && CaptureResult(views[j].responses).Some? &&
        var info := CaptureResult(views[j].responses).value;
        && s.account == accounts[j]
        && s.hlsUrl == info.hlsUrl && s.sessionId == info.sessionId && s.shareUrl == info.shareUrl
  {
    var visits := Visits(accounts, views);
    CompletedMeansNoJoinTimeout(accounts, visits);
    PollCollectsRecords(accounts, visits);
    var s := Poll(accounts, visits).outcome.spaces[k];
    RecordsComeFromCaptures(visits, s);
    var j :| 0 <= j < |visits| && visits[j].Captured? && visits[j].space == s;
    assert visits[j] == VisitAccount(accounts[j], views[j]);
  }

  /** Accounts that are not live, or whose capture failed, contribute nothing. */
  lemma {:induction false} UncapturedContributeNothing(visits: seq<Visit>)
    requires forall j :: 0 <= j < |visits| ==> !visits[j].Captured?
    ensures Records(visits) == []
    decreases |visits|
  {
    if |visits| > 0 {
      assert !visits[0].Captured?;
      assert forall j :: 0 <= j < |visits| - 1 ==> visits[1..][j] == visits[j + 1];
      UncapturedContributeNothing(visits[1..]);
    }
  }

  /** The number of accounts a run navigates to: all of them, or up to the failing one. */
  function Reached(accounts: seq<string>, outcome: PollOutcome): nat {
    match outcome
    case Completed(_) => |accounts|
    case Aborted(k) => k + 1
  }

  /** A completed run so far navigates to one more profile; a failed one stays as it is. */
  lemma AdvanceVisited(prev: RunLog, n: nat, account: string, v: Visit)
    ensures prev.outcome.Completed? ==>
      Advance(prev, n, account, v).visited == prev.visited + [ProfileUrl(account)]
    ensures prev.outcome.Completed? ==>
      Advance(prev, n, account, v).outcome.Completed? || Advance(prev, n, account, v).outcome == Aborted(n)
    ensures prev.outcome.Aborted? ==> Advance(prev, n, account, v) == prev
  {
  }

  /** The browser visits the profiles in list order and stops after the failing account. */
  lemma {:induction false} PollVisitsInOrder(accounts: seq<string>, visits: seq<Visit>)
    requires |accounts| == |visits|
    ensures var log := Poll(accounts, visits);
      && Reached(accounts, log.outcome) <= |accounts|
      && |log.visited| == Reached(accounts, log.outcome)
      && (forall j :: 0 <= j < |log.visited| ==> log.visited[j] == ProfileUrl(accounts[j]))
    decreases |accounts|
  {
    if |accounts| > 0 {
      var n := |accounts| - 1;
      PollVisitsInOrder(accounts[..n], visits[..n]);
      var prev := Poll(accounts[..n], visits[..n]);
      var log := Poll(accounts, visits);
      assert log == Advance(prev, n, accounts[n], visits[n]);
      AdvanceVisited(prev, n, accounts[n], visits[n]);
      forall j | 0 <= j < |log.visited| ensures log.visited[j] == ProfileUrl(accounts[j]) {
        if j < n {
          assert accounts[..n][j] == accounts[j];
        }
      }
    }
  }

  /**
   * Every click is on a reached account; a live-marker click is on the div
   * its visit joined, and a "Start listening" click is on a visit that got
   * past the wait.
   */
  predicate ClicksFollowVisits(visits: seq<Visit>, reached: nat, clicks: seq<Click>) {
    forall c :: c in clicks ==>
      c.account < reached && c.account < |visits| &&
      (c.ListenLive? ==> Joined(visits[c.account]) && visits[c.account].div == c.div) &&
      (c.StartListening? ==> PassedWait(visits[c.account]))
  }

  /** The visit clicked "Listen live". */
  predicate Joined(v: Visit) {
    v.JoinTimedOut? || v.NothingCaptured? || v.Captured?
  }

  /** The visit saw "Start listening" appear within the wait. */
  predicate PassedWait(v: Visit) {
    v.NothingCaptured? || v.Captured?
  }

  /** Live-marker clicks go to strictly increasing accounts: at most one per account, in order. */
  predicate OneJoinClickPerAccount(clicks: seq<Click>) {
    forall p, q :: 0 <= p < q < |clicks| && clicks[p].ListenLive? && clicks[q].ListenLive? ==>
      clicks[p].account < clicks[q].account
  }

  /** The clicks of one visit: all on its account, and only the first is on "Listen live". */
  lemma VisitClicksShape(n: nat, v: Visit)
    ensures var cs := VisitClicks(n, v);
      && ClicksFollowVisitsAt(n, v, cs)
      && (forall p :: 0 < p < |cs| ==> !cs[p].ListenLive?)
  {
  }

  /** Every click of `cs` is on account `n`, and a live-marker click is on the div `v` joined. */
  predicate ClicksFollowVisitsAt(n: nat, v: Visit, cs: seq<Click>) {
    forall c :: c in cs ==>
      c.account == n && (c.ListenLive? ==> Joined(v) && v.div == c.div) && (c.StartListening? ==> PassedWait(v))
  }

  /** A completed run so far gains exactly the visit's clicks. */
  lemma AdvanceClicks(prev: RunLog, n: nat, account: string, v: Visit)
    requires prev.outcome.Completed?
    ensures Advance(prev, n, account, v).clicks == prev.clicks + VisitClicks(n, v)
    ensures Advance(prev, n, account, v).outcome.Completed? || Advance(prev, n, account, v).outcome == Aborted(n)
  {
  }

  lemma {:induction false} PollClicksFollowVisits(accounts: seq<string>, visits: seq<Visit>)
    requires |accounts| == |visits|
    ensures var log := Poll(accounts, visits);
      ClicksFollowVisits(visits, Reached(accounts, log.outcome), log.clicks)
    decreases |accounts|
  {
    if |accounts| > 0 {
      var n := |accounts| - 1;
      PollClicksFollowVisits(accounts[..n], visits[..n]);
      PollVisitsInOrder(accounts[..n], visits[..n]);
      var prev := Poll(accounts[..n], visits[..n]);
      var log := Poll(accounts, visits);
      assert log == Advance(prev, n, accounts[n], visits[n]);
      if prev.outcome.Completed? {
        AdvanceClicks(prev, n, accounts[n], visits[n]);
        VisitClicksShape(n, visits[n]);
        assert Reached(accounts, log.outcome) == n + 1;
        forall c | c in log.clicks
          ensures c.account < n + 1 && c.account < |visits|
          ensures c.ListenLive? ==> Joined(visits[c.account]) && visits[c.account].div == c.div
          ensures c.StartListening? ==> PassedWait(visits[c.account])
        {
          if c in prev.clicks {
            assert visits[..n][c.account] == visits[c.account];
          }
        }
      } else {
        assert log == prev;
        forall c | c in log.clicks
          ensures c.ListenLive? ==> Joined(visits[c.account]) && visits[c.account].div == c.div
          ensures c.StartListening? ==> PassedWait(visits[c.account])
        {
          assert visits[..n][c.account] == visits[c.account];
        }
      }
    }
  }

  lemma {:induction false} PollOneJoinClickPerAccount(accounts: seq<string>, visits: seq<Visit>)
    requires |accounts| == |visits|
    ensures OneJoinClickPerAccount(Poll(accounts, visits).clicks)
    decreases |accounts|
  {
    if |accounts| > 0 {
      var n := |accounts| - 1;
      PollOneJoinClickPerAccount(accounts[..n], visits[..n]);
      PollClicksFollowVisits(accounts[..n], visits[..n]);
      PollVisitsInOrder(accounts[..n], visits[..n]);
      var prev := Poll(accounts[..n], visits[..n]);
      if prev.outcome.Completed? {
        var cs := VisitClicks(n, visits[n]);
        AdvanceClicks(prev, n, accounts[n], visits[n]);
        VisitClicksShape(n, visits[n]);
        var clicks := prev.clicks + cs;
        assert Poll(accounts, visits).clicks == clicks;
        forall p, q | 0 <= p < q < |clicks| && clicks[p].ListenLive? && clicks[q].ListenLive?
          ensures clicks[p].account < clicks[q].account
        {
          if q >= |prev.clicks| {
            assert clicks[q] == cs[q - |prev.clicks|];
            assert q == |prev.clicks|;
            assert clicks[p] in prev.clicks;
          }
        }
      }
    }
  }

  /**
   * The browser clicks only the first live-marker div of a live page, at
   * most once per account, in account order, and only on reached accounts.
   */
  lemma PollClicks(accounts: seq<string>, views: seq<PageView>)
    requires |accounts| == |views|
    ensures var log := Poll(accounts, Visits(accounts, views));
      && (forall c :: c in log.clicks ==> c.account < Reached(accounts, log.outcome) && c.account < |views|)
      && (forall c :: c in log.clicks && c.ListenLive? ==>
            HasLiveMarker(views[c.account].renderedDivs) && FirstMarker(views[c.account].divsAtJoin) == Some(c.div))
      && (forall c :: c in log.clicks && c.StartListening? ==>
            HasLiveMarker(views[c.account].renderedDivs) && HasLiveMarker(views[c.account].divsAtJoin) &&
            views[c.account].startListeningShown)
      && OneJoinClickPerAccount(log.clicks)
  {
    PollClicksFollowVisits(accounts, Visits(accounts, views));
    PollOneJoinClickPerAccount(accounts, Visits(accounts, views));
  }

  /** Polling one account more extends the run by one `Advance`. */
  lemma PollStep(accounts: seq<string>, visits: seq<Visit>, i: nat)
    requires |accounts| == |visits| && i < |accounts|
    ensures Poll(accounts[..i + 1], visits[..i + 1]) ==
      Advance(Poll(accounts[..i], visits[..i]), i, accounts[i], visits[i])
  {
    assert accounts[..i + 1][..i] == accounts[..i] && visits[..i + 1][..i] == visits[..i];
  }

  /** A failed prefix decides the whole run. */
  lemma {:induction false} AbortedPrefixIsFinal(accounts: seq<string>, visits: seq<Visit>, i: nat)
    requires |accounts| == |visits| && i <= |accounts|
    requires Poll(accounts[..i], visits[..i]).outcome.Aborted?
    ensures Poll(accounts, visits) == Poll(accounts[..i], visits[..i])
    decreases |accounts| - i
  {
    if i < |accounts| {
      var n := |accounts| - 1;
      if i < n {
        assert accounts[..n][..i] == accounts[..i] && visits[..n][..i] == visits[..i];
        AbortedPrefixIsFinal(accounts[..n], visits[..n], i);
      }
    } else {
      assert accounts[..i] == accounts && visits[..i] == visits;
    }
  }

  /**
   * The browser context: its page's navigation history, the clicks it
   * received, and whether it has been closed.
   */
  class Browser {
    var closed: bool
    var visited: seq<string>
    var clicks: seq<Click>

    /** `launchPersistentContext` followed by `newPage`. */
    constructor Launch()
      ensures !closed && visited == [] && clicks == []
    {
      closed := false;
      visited := [];
      clicks := [];
    }

    /** `page.goto(url)`. */
    method Goto(url: string)
      requires !closed
      modifies this
      ensures visited == old(visited) + [url]
      ensures clicks == old(clicks) && closed == old(closed)
    {
      visited := visited + [url];
    }

    /** `click` on an element of the page. */
    method Click(c: Click)
      requires !closed
      modifies this
      ensures clicks == old(clicks) + [c]
      ensures visited == old(visited) && closed == old(closed)
    {
      clicks := clicks + [c];
    }

    /**
     * The inner `for…of` over the page's divs: click the first whose text
     * is the live marker and stop; click nothing if none is.
     */
    method ClickFirstMarker(account: nat, divs: seq<string>) returns (clicked: Option<nat>)
      requires !closed
      modifies this
      ensures clicked == FirstMarker(divs)
      ensures clicks == old(clicks) + (if clicked.Some? then [ListenLive(account, clicked.value)] else [])
      ensures visited == old(visited) && closed == old(closed)
    {
      clicked := None;
      var i := 0;
      while i < |divs|
        invariant 0 <= i <= |divs|
        invariant forall j :: 0 <= j < i ==> divs[j] != LiveMarker
        invariant clicks == old(clicks) && visited == old(visited) && closed == old(closed)
      {
        if divs[i] == LiveMarker {
          Click(ListenLive(account, i));
          clicked := Some(i);
          break;
        }
        i := i + 1;
      }
    }

    /** `browser.close()`. */
    method Close()
      modifies this
      ensures closed
      ensures visited == old(visited) && clicks == old(clicks)
    {
      closed := true;
    }
  }

  /**
   * The loop body for account number `i`: navigate, classify, and on a live
   * page click the first marker, wait for "Start listening" (a timeout is
   * reported as `timedOut`, the exception the source lets escape), click it
   * and capture.
   */
  method PollAccount(browser: Browser, i: nat, account: string, view: PageView)
    returns (timedOut: bool, space: Option<LiveSpace>)
    requires !browser.closed
    modifies browser
    ensures !browser.closed
    ensures browser.visited == old(browser.visited) + [ProfileUrl(account)]
    ensures browser.clicks == old(browser.clicks) + VisitClicks(i, VisitAccount(account, view))
    ensures timedOut <==> VisitAccount(account, view).JoinTimedOut?
    ensures space == if VisitAccount(account, view).Captured? then Some(VisitAccount(account, view).space) else None
  {
    timedOut, space := false, None;
    var accountName := AccountName(account);
    browser.Goto(SiteRoot + accountName);
    if HasLiveMarker(view.renderedDivs) {
      var clicked := browser.ClickFirstMarker(i, view.divsAtJoin);
      if clicked.Some? {
        if !view.startListeningShown {
          timedOut := true;
        } else {
          browser.Click(StartListening(i));
          var streamInfo := CaptureStreamInfo(view.responses);
          if streamInfo.Some? {
            space := Some(Tag(account, streamInfo.value));
          }
        }
      }
    }
  }

  /**
   * `checkLiveSpaces`: poll every account in order inside `try`, close the
   * browser in `finally`. A "Start listening" timeout is not caught, so it
   * ends the loop and the call fails.
   */
  method CheckLiveSpaces(accounts: seq<string>, views: seq<PageView>) returns (outcome: PollOutcome, browser: Browser)
    requires |accounts| == |views|
    ensures browser.closed
    ensures outcome == Poll(accounts, Visits(accounts, views)).outcome
    ensures browser.visited == Poll(accounts, Visits(accounts, views)).visited
    ensures browser.clicks == Poll(accounts, Visits(accounts, views)).clicks
  {
    ghost var visits := Visits(accounts, views);
    browser := new Browser.Launch();
    var liveSpaces: seq<LiveSpace> := [];
    var failure: Option<nat> := None;
    var i := 0;
    while i < |accounts| && failure.None?
      invariant 0 <= i <= |accounts|
      invariant !browser.closed
      invariant failure.Some? ==> i > 0 && failure.value == i - 1
      invariant Poll(accounts[..i], visits[..i]) ==
        RunLog(if failure.Some? then Aborted(failure.value) else Completed(liveSpaces), browser.visited, browser.clicks)
    {
      PollStep(accounts, visits, i);
      var timedOut, space := PollAccount(browser, i, accounts[i], views[i]);
      if timedOut {
        failure := Some(i);
      } else if space.Some? {
        liveSpaces := liveSpaces + [space.value];
      }
      i := i + 1;
    }
    if failure.Some? {
      AbortedPrefixIsFinal(accounts, visits, i);
    } else {
      assert accounts[..i] == accounts && visits[..i] == visits;
    }
    browser.Close();
    outcome := if failure.Some? then Aborted(failure.value) else Completed(liveSpaces);
  }

  /** Two accounts: "@alice" is not live, "@bob" is live and his stream is captured. */
  lemma AliceAndBob()
    ensures var bobResponse := Response(
        "https://x.com/i/api/1.1/live_video_stream/status/1", "GET",
        Some("https://prod.periscope/x.m3u8"), Some("abc123"), Some("https://x.com/s/1"));
      var alice := PageView(["Home", "Posts"], ["Home", "Posts"], false, []);
      var bob := PageView(["Listen live"], ["Listen live", "Listen live"], true, [Unparsable, Delivered(bobResponse)]);
      Poll(["@alice", "@bob"], Visits(["@alice", "@bob"], [alice, bob])).outcome ==
        Completed([LiveSpace("@bob", "https://prod.periscope/x.m3u8", "abc123", Some("https://x.com/s/1"))])
  {
    var bobResponse := Response(
      "https://x.com/i/api/1.1/live_video_stream/status/1", "GET",
      Some("https://prod.periscope/x.m3u8"), Some("abc123"), Some("https://x.com/s/1"));
    var alice := PageView(["Home", "Posts"], ["Home", "Posts"], false, []);
    var bob := PageView(["Listen live"], ["Listen live", "Listen live"], true, [Unparsable, Delivered(bobResponse)]);
    assert StartsWith(bobResponse.url, StreamEndpoint);
    assert OccursAt(bobResponse.location.value, ProviderMarker, 13);
    ContainsAt(bobResponse.location.value, ProviderMarker, 13);
    assert Qualifies(bobResponse);
    CaptureFirstQualifying(bob.responses, 1);
    assert bob.renderedDivs[0] == LiveMarker;
    var accounts, visits := ["@alice", "@bob"], Visits(["@alice", "@bob"], [alice, bob]);
    assert visits == [NotLive, VisitAccount("@bob", bob)];
    assert accounts[..1] == ["@alice"] && visits[..1] == [NotLive];
  }
}

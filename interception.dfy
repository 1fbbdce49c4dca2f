/**
 * The stream-info capture of checkLiveSpaces.js (`captureStreamInfo`): a
 * response listener and a ten-second timer racing to resolve one promise.
 * The page's network traffic is an event trace; the promise is a state that
 * leaves `Pending` at most once.
 */
module Interception {
  import opened Wrappers
  import opened Text

  /** Path signature of the stream-negotiation endpoint. */
  const StreamEndpoint: string := "https://x.com/i/api/1.1/live_video_stream/"
  /** Provider marker that the stream location must contain. */
  const ProviderMarker: string := "periscope"

  /**
   * A network response whose body decoded as JSON. `location` is
   * `json.source.location` (absent when `source` or `location` is missing).
   */
  datatype Response = Response(
    url: string,
    httpMethod: string,
    location: Option<string>,
    sessionId: Option<string>,
    shareUrl: Option<string>)

  /**
   * What the listener and the timer observe once the listener is armed:
   * a decoded response, a response whose processing threw (a body that is
   * not JSON, say), or the timer firing.
   */
  datatype Event = Delivered(response: Response) | Unparsable | Timeout

  /** The object the promise resolves with. */
  datatype StreamInfo = StreamInfo(hlsUrl: string, sessionId: string, shareUrl: Option<string>)

  /** The promise of one capture attempt. */
  datatype CaptureState = Pending | Resolved(result: Option<StreamInfo>)

  /** The four-part test a response must pass to resolve the capture. */
  predicate Qualifies(r: Response) {
    && Contains(r.url, StreamEndpoint)
    && r.httpMethod == "GET"
    && r.location.Some? && Contains(r.location.value, ProviderMarker)
    && Truthy(r.sessionId)
  }

  /** The stream descriptor built from a qualifying response. */
  function Extract(r: Response): (info: StreamInfo)
    requires Qualifies(r)
    ensures Contains(info.hlsUrl, ProviderMarker) && info.sessionId != ""
    ensures Some(info.hlsUrl) == r.location && Some(info.sessionId) == r.sessionId
    ensures info.shareUrl == r.shareUrl
  {
    StreamInfo(r.location.value, r.sessionId.value, r.shareUrl)
  }

  /** An event that resolves a pending capture. */
  predicate Decisive(e: Event) {
    e.Timeout? || (e.Delivered? && Qualifies(e.response))
  }

  /** One event applied to the promise. */
  function Step(s: CaptureState, e: Event): (s': CaptureState)
    ensures s.Resolved? ==> s' == s
    ensures s.Pending? ==> (s'.Pending? <==> !Decisive(e))
    ensures e.Timeout? ==> s'.Resolved?
    ensures s.Pending? && e.Timeout? ==> s' == Resolved(None)
    ensures s.Pending? && Decisive(e) && e.Delivered? ==> s' == Resolved(Some(Extract(e.response)))
  {
    match s
    case Resolved(_) => s
    case Pending =>
      match e
      case Delivered(r) => if Qualifies(r) then Resolved(Some(Extract(r))) else Pending
      case Unparsable => Pending
      case Timeout => Resolved(None)
  }

  /** The promise after a whole trace, events taken in order. */
  function Run(s: CaptureState, trace: seq<Event>): CaptureState
    decreases |trace|
  {
    if |trace| == 0 then s else Step(Run(s, trace[..|trace| - 1]), trace[|trace| - 1])
  }

  /**
   * What `captureStreamInfo` resolves with: the events of `trace` in order,
   * then the timer, which fires unless it was cleared.
   */
  function CaptureResult(trace: seq<Event>): Option<StreamInfo> {
    Step(Run(Pending, trace), Timeout).result
  }

  /** Reference reading: the index of the first decisive event, if any. */
  function FirstDecisive(trace: seq<Event>): (k: Option<nat>)
    ensures k.Some? ==> k.value < |trace| && Decisive(trace[k.value])
    ensures k.Some? ==> forall j :: 0 <= j < k.value ==> !Decisive(trace[j])
    ensures k.None? ==> forall j :: 0 <= j < |trace| ==> !Decisive(trace[j])
    decreases |trace|
  {
    if |trace| == 0 then None
    else if Decisive(trace[0]) then Some(0)
    else match FirstDecisive(trace[1..])
      case None => None
      case Some(k) => Some(k + 1)
  }

  /** A resolved promise ignores every later event. */
  lemma {:induction false} ResolvedIsFinal(x: Option<StreamInfo>, trace: seq<Event>)
    ensures Run(Resolved(x), trace) == Resolved(x)
    decreases |trace|
  {
    if |trace| > 0 {
      ResolvedIsFinal(x, trace[..|trace| - 1]);
    }
  }

  /** Running two traces one after the other is running their concatenation. */
  lemma {:induction false} RunAppend(s: CaptureState, t1: seq<Event>, t2: seq<Event>)
    ensures Run(s, t1 + t2) == Run(Run(s, t1), t2)
    decreases |t2|
  {
    if |t2| == 0 {
      assert t1 + t2 == t1;
    } else {
      assert (t1 + t2)[..|t1 + t2| - 1] == t1 + t2[..|t2| - 1];
      RunAppend(s, t1, t2[..|t2| - 1]);
    }
  }

  /** Non-qualifying and unparsable responses leave the capture pending. */
  lemma {:induction false} IgnoredEventsKeepPending(trace: seq<Event>)
    requires forall j :: 0 <= j < |trace| ==> !Decisive(trace[j])
    ensures Run(Pending, trace) == Pending
    decreases |trace|
  {
    if |trace| > 0 {
      IgnoredEventsKeepPending(trace[..|trace| - 1]);
    }
  }

  /**
   * The capture resolves with the first decisive event: the descriptor of
   * the first qualifying response when it precedes the timer, otherwise null.
   */
  lemma CaptureMatchesFirstDecisive(trace: seq<Event>)
    ensures CaptureResult(trace) ==
      match FirstDecisive(trace)
      case None => None
      case Some(k) => if trace[k].Timeout? then None else Some(Extract(trace[k].response))
  {
    match FirstDecisive(trace)
    case None =>
      IgnoredEventsKeepPending(trace);
    case Some(k) =>
      var before, rest := trace[..k], trace[k + 1..];
      assert trace == before + [trace[k]] + rest;
      IgnoredEventsKeepPending(before);
      RunAppend(Pending, before + [trace[k]], rest);
      RunAppend(Pending, before, [trace[k]]);
      assert Run(Pending, [trace[k]]) == Step(Pending, trace[k]) by {
        assert [trace[k]][..0] == [];
      }
      assert Run(Pending, before + [trace[k]]) == Step(Pending, trace[k]) by {
        assert (before + [trace[k]])[..|before|] == before;
      }
      ResolvedIsFinal(Step(Pending, trace[k]).result, rest);
  }

  /** A qualifying response before any timeout is captured, whatever follows. */
  lemma CaptureFirstQualifying(trace: seq<Event>, k: nat)
    requires k < |trace| && trace[k].Delivered? && Qualifies(trace[k].response)
    requires forall j :: 0 <= j < k ==> !Decisive(trace[j])
    ensures CaptureResult(trace) == Some(Extract(trace[k].response))
  {
    CaptureMatchesFirstDecisive(trace);
    var f := FirstDecisive(trace);
    assert f == Some(k);
  }

  /** The capture is null exactly when no qualifying response precedes the timer. */
  lemma CaptureNullIff(trace: seq<Event>)
    ensures CaptureResult(trace).None? <==>
      forall k :: 0 <= k < |trace| && trace[k].Delivered? && Qualifies(trace[k].response) ==>
        exists j :: 0 <= j < k && trace[j].Timeout?
  {
    CaptureMatchesFirstDecisive(trace);
    match FirstDecisive(trace)
    case None =>
    case Some(f) =>
      if trace[f].Timeout? {
        forall k | 0 <= k < |trace| && trace[k].Delivered? && Qualifies(trace[k].response)
          ensures exists j :: 0 <= j < k && trace[j].Timeout?
        {
          assert f < k;
        }
      } else {
        forall j | 0 <= j < f ensures !trace[j].Timeout? {
          assert !Decisive(trace[j]);
        }
      }
  }

  /** A response that arrives after the capture resolved changes nothing. */
  lemma LateEventsIgnored(t1: seq<Event>, t2: seq<Event>)
    requires Run(Pending, t1).Resolved?
    ensures Run(Pending, t1 + t2) == Run(Pending, t1)
    ensures CaptureResult(t1 + t2) == CaptureResult(t1)
  {
    RunAppend(Pending, t1, t2);
    ResolvedIsFinal(Run(Pending, t1).result, t2);
  }

  /**
   * The armed listener and timer of one attempt. `timerPending` is the
   * uncleared `setTimeout`; `state` is the promise.
   */
  class Interceptor {
    var state: CaptureState
    var timerPending: bool

    /** The timer is running exactly while the promise is pending. */
    ghost predicate Valid()
      reads this
    {
      timerPending <==> state.Pending?
    }

    /** Arms the timer and the listener. */
    constructor ()
      ensures Valid() && state == Pending
    {
      state := Pending;
      timerPending := true;
    }

    /** The listener or the timer handles one event. */
    method Deliver(e: Event)
      requires Valid()
      modifies this
      ensures Valid() && state == Step(old(state), e)
    {
      match e
      case Delivered(r) =>
        if Qualifies(r) {
          timerPending := false;
          if state.Pending? {
            state := Resolved(Some(Extract(r)));
          }
        }
      case Unparsable =>
        // the listener catches and logs the error
      case Timeout =>
        if timerPending {
          timerPending := false;
          state := Resolved(None);
        }
    }
  }

  /**
   * `captureStreamInfo`: arm, feed the page's events, and await the promise,
   * which the timer settles if nothing else did.
   */
  method CaptureStreamInfo(trace: seq<Event>) returns (info: Option<StreamInfo>)
    ensures info == CaptureResult(trace)
  {
    var interceptor := new Interceptor();
    var i := 0;
    while i < |trace|
      invariant 0 <= i <= |trace|
      invariant interceptor.Valid()
      invariant interceptor.state == Run(Pending, trace[..i])
    {
      assert trace[..i + 1][..i] == trace[..i];
      interceptor.Deliver(trace[i]);
      i := i + 1;
    }
    assert trace[..i] == trace;
    interceptor.Deliver(Timeout);
    info := interceptor.state.result;
  }
}

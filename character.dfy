/** character.py: the avatar-video job of the D-ID service. `process` starts
    a job and reports its id; `obtain` polls the job's status a bounded number
    of times and downloads the finished video. Every HTTP reply is an input. */
module Character {
  import opened Strings
  import opened Json

  /** `range(10)` in `obtain`. */
  const MaxAttempts := 10
  const VideoFileName := "response.mp4"

  // ---------------------------------------------------------------------
  // Starting a job (character.py:54-63)
  // ---------------------------------------------------------------------

  /** A reply of the service: its status code and its decoded JSON object. */
  datatype ServiceReply = ServiceReply(statusCode: int, body: map<string, Json>)

  /** `process`: the `"id"` of the reply's body, whatever its status code
      (a non-200 reply is only logged). */
  function Process(reply: ServiceReply): (id: Option<Json>)
    ensures id.Some? <==> "id" in reply.body
    ensures id.Some? ==> id.value == reply.body["id"]
  {
    Get(reply.body, "id")
  }

  /** The status code plays no part in the id returned. */
  lemma ProcessIgnoresStatus(body: map<string, Json>, code1: int, code2: int)
    ensures Process(ServiceReply(code1, body)) == Process(ServiceReply(code2, body))
  {
  }

  // ---------------------------------------------------------------------
  // Polling the job (character.py:76-103)
  // ---------------------------------------------------------------------

  predicate IsStatus(reply: ServiceReply, status: string)
  {
    Get(reply.body, "status") == Some(Str(status))
  }

  /** A successful reply whose status means "not ready yet". */
  predicate Pending(reply: ServiceReply)
  {
    reply.statusCode == 200 && (IsStatus(reply, "created") || IsStatus(reply, "started"))
  }

  /** The video URL of a finished job, when the reply carries a truthy one. */
  predicate HasResultUrl(reply: ServiceReply)
  {
    "result_url" in reply.body && Truthy(reply.body["result_url"])
  }

  /** How polling ends, and how many status requests it made. */
  datatype PollOutcome = Ready(resultUrl: Json) | Failed | Exhausted
  datatype Poll = Poll(outcome: PollOutcome, requests: nat)

  /** Polling from attempt `attempt` on, `replies(k)` being the reply to the
      status request of attempt `k`. */
  function PollFrom(replies: nat -> ServiceReply, attempt: nat): (p: Poll)
    requires attempt <= MaxAttempts
    ensures attempt <= p.requests <= MaxAttempts
    ensures p.outcome.Exhausted? ==> p.requests == MaxAttempts
    ensures p.outcome.Ready? ==>
      && attempt < p.requests
      && HasResultUrl(replies(p.requests - 1))
      && p.outcome.resultUrl == replies(p.requests - 1).body["result_url"]
    decreases MaxAttempts - attempt
  {
    if attempt == MaxAttempts then Poll(Exhausted, MaxAttempts)
    else
      var reply := replies(attempt);
      if reply.statusCode != 200 then Poll(Failed, attempt + 1)
      else if IsStatus(reply, "done") then
        if HasResultUrl(reply) then Poll(Ready(reply.body["result_url"]), attempt + 1)
        else Poll(Failed, attempt + 1)
      else if IsStatus(reply, "created") || IsStatus(reply, "started") then PollFrom(replies, attempt + 1)
      else Poll(Failed, attempt + 1)
  }

  /** The reply to the video download: its status code, and whether writing
      the chunks to `static/response.mp4` succeeded. */
  datatype DownloadReply = DownloadReply(statusCode: int, saved: bool)

  /** What `obtain` returns: the file name once the video is stored, else `None`. */
  function ObtainResult(replies: nat -> ServiceReply, download: DownloadReply): Option<string>
  {
    if PollFrom(replies, 0).outcome.Ready? && download.statusCode == 200 && download.saved
    then Some(VideoFileName) else None
  }

  /** `obtain`: the bounded polling loop with its early returns, `break` and
      `for`-`else`, then the download. Returns the result, the number of
      status requests made and the URL downloaded (`None`: no download). */
  method Obtain(replies: nat -> ServiceReply, download: DownloadReply)
    returns (file: Option<string>, statusRequests: nat, downloaded: Option<Json>)
    ensures statusRequests == PollFrom(replies, 0).requests && statusRequests <= MaxAttempts
    ensures downloaded == if PollFrom(replies, 0).outcome.Ready? then Some(PollFrom(replies, 0).outcome.resultUrl) else None
    ensures file == ObtainResult(replies, download)
  {
    file, statusRequests, downloaded := None, 0, None;
    var resultUrl := Null;
    var ready := false;
    for attempt := 0 to MaxAttempts
      invariant statusRequests == attempt
      invariant PollFrom(replies, 0) == PollFrom(replies, attempt)
    {
      var reply := replies(attempt);
      statusRequests := attempt + 1;
      if reply.statusCode != 200 {
        return;
      }
      if IsStatus(reply, "done") {
        if !HasResultUrl(reply) {
          return;
        }
        resultUrl := reply.body["result_url"];
        ready := true;
        break;
      } else if IsStatus(reply, "created") || IsStatus(reply, "started") {
        // not ready yet: the next attempt follows
      } else {
        return;
      }
    }
    if !ready {
      return;
    }
    downloaded := Some(resultUrl);
    if download.statusCode != 200 {
      return;
    }
    if !download.saved {
      return;
    }
    file := Some(VideoFileName);
  }

  // ---------------------------------------------------------------------
  // Properties of polling
  // ---------------------------------------------------------------------

  /** Attempts whose replies are pending lead on to the next one. */
  lemma {:induction false} SkipPending(replies: nat -> ServiceReply, from: nat, to: nat)
    requires from <= to <= MaxAttempts
    requires forall k :: from <= k < to ==> Pending(replies(k))
    ensures PollFrom(replies, from) == PollFrom(replies, to)
    decreases MaxAttempts - from
  {
    if from < to {
      SkipPending(replies, from + 1, to);
    }
  }

  /** After `i` pending replies, the `i`-th decides at once: a non-200 reply or
      an unexpected status fails, "done" ends polling with its URL or fails
      without one, and each takes exactly `i + 1` requests. */
  lemma PollDecidedAt(replies: nat -> ServiceReply, i: nat)
    requires i < MaxAttempts && !Pending(replies(i))
    requires forall k :: 0 <= k < i ==> Pending(replies(k))
    ensures PollFrom(replies, 0).requests == i + 1
    ensures replies(i).statusCode != 200 ==> PollFrom(replies, 0).outcome == Failed
    ensures replies(i).statusCode == 200 && IsStatus(replies(i), "done") ==>
      PollFrom(replies, 0).outcome == if HasResultUrl(replies(i)) then Ready(replies(i).body["result_url"]) else Failed
    ensures replies(i).statusCode == 200 && !IsStatus(replies(i), "done") ==> PollFrom(replies, 0).outcome == Failed
  {
    SkipPending(replies, 0, i);
  }

  /** Ten pending replies exhaust the budget: no video. */
  lemma AllPendingExhausts(replies: nat -> ServiceReply)
    requires forall k :: 0 <= k < MaxAttempts ==> Pending(replies(k))
    ensures PollFrom(replies, 0) == Poll(Exhausted, MaxAttempts)
    ensures ObtainResult(replies, DownloadReply(200, true)) == None
  {
    SkipPending(replies, 0, MaxAttempts);
  }

  /** A ready outcome comes only from a "done" reply with a URL, every earlier
      reply being pending. */
  lemma {:induction false} ReadyOnlyAfterDone(replies: nat -> ServiceReply, from: nat)
    requires from <= MaxAttempts && PollFrom(replies, from).outcome.Ready?
    ensures var n := PollFrom(replies, from).requests;
      && from < n
      && (forall k :: from <= k < n - 1 ==> Pending(replies(k)))
      && replies(n - 1).statusCode == 200 && IsStatus(replies(n - 1), "done") && HasResultUrl(replies(n - 1))
    decreases MaxAttempts - from
  {
    var reply := replies(from);
    if reply.statusCode == 200 && !IsStatus(reply, "done") && (IsStatus(reply, "created") || IsStatus(reply, "started")) {
      ReadyOnlyAfterDone(replies, from + 1);
    }
  }

  /** Attempt `i` is a "done" reply with a URL, every earlier one pending. */
  predicate DoneAt(replies: nat -> ServiceReply, i: nat)
  {
    && i < MaxAttempts
    && (forall k :: 0 <= k < i ==> Pending(replies(k)))
    && replies(i).statusCode == 200 && IsStatus(replies(i), "done") && HasResultUrl(replies(i))
  }

  /** Polling finds the video exactly when some attempt is "done" with a URL
      after pending replies only. */
  lemma ReadyIffDoneAt(replies: nat -> ServiceReply)
    ensures PollFrom(replies, 0).outcome.Ready? <==> exists i :: DoneAt(replies, i)
  {
    if PollFrom(replies, 0).outcome.Ready? {
      ReadyOnlyAfterDone(replies, 0);
      assert DoneAt(replies, PollFrom(replies, 0).requests - 1);
    }
    if exists i :: DoneAt(replies, i) {
      var i :| DoneAt(replies, i);
      PollDecidedAt(replies, i);
    }
  }

  /** `obtain` returns `"response.mp4"` exactly when polling found the video
      and the download and the write both succeeded; otherwise `None`. */
  lemma ObtainSucceedsIff(replies: nat -> ServiceReply, download: DownloadReply)
    ensures ObtainResult(replies, download) == None || ObtainResult(replies, download) == Some(VideoFileName)
    ensures ObtainResult(replies, download) == Some(VideoFileName) <==>
      (exists i :: DoneAt(replies, i)) && download.statusCode == 200 && download.saved
  {
    ReadyIffDoneAt(replies);
  }
}

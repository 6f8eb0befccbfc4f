/**
 The client of the one-shot writer: a ledger of requests, bytes and time in front of every
 call, and a single PUT that is never repeated.
 */
module WriterLedger {
  import opened Options
  import opened Strings

  const MAX_REQUESTS := 300
  const MAX_PHASE_REQUESTS := 100
  const MAX_SECONDS := 600
  const MAX_PHASE_SECONDS := 120
  const MAX_BYTES := 75 * 1024 * 1024
  const MAX_ARCHIVE_BYTES := 20 * 1024 * 1024
  const MAX_RESPONSE_BYTES := 1024 * 1024

  const REPOSITORY_PREFIX := "/repos/openboa-ai/openboa"

  /** The codes of the exceptions that the client raises. */
  datatype Code =
    | WriterTotalBudgetExceeded
    | WriterCollectionBudgetExceeded
    | MergeOutcomeUnknown
    | GithubHttpError
    | GithubTransportError
    | Uncaught
    | JsonBudgetExceeded
    | InvalidJson
    | MergeRejected
    | ApiRouteRejected
    | CollectionBudgetExceeded
    | WriterByteBudgetExceeded
    | ArtifactRequestBudgetOrIdentity
    | ArtifactRedirectMissing
    | ArtifactTransportError
    | ArtifactHttpError
    | ArtifactDownloadOriginRejected
    | ArtifactDownloadError
    | ArtifactCompressedBudgetExceeded
    | WriteNotEnabledOrAlreadyAttempted
    | InsufficientMergeReconciliationBudget
    | InsufficientMergeResponseByteBudget

  /** A value returned, or the code of the exception raised instead. */
  datatype Result<+T> = Returned(value: T) | Raised(code: Code)

  datatype Request =
    | GetRequest(route: string)
    | ArtifactRequest(id: int)
    | ArtifactDownload(id: int)
    | PutRequest(head: string)

  /** What the other side answers: `content` is the decoded body, absent when it is unusable. */
  datatype Reply =
    | HttpError(status: int)
    | TransportError
    | OtherFailure
    | Body(length: nat, content: Option<string>)

  datatype ArtifactReply = ArtifactReply(redirect: Reply, locationAllowed: bool, archive: Reply)

  function PutCount(requests: seq<Request>): nat {
    if requests == [] then 0
    else PutCount(requests[..|requests| - 1]) + if requests[|requests| - 1].PutRequest? then 1 else 0
  }

  lemma PutCountNext(requests: seq<Request>, next: Request)
    ensures PutCount(requests + [next]) == PutCount(requests) + if next.PutRequest? then 1 else 0
  {
    assert (requests + [next])[..|requests|] == requests;
  }

  /** The bytes that reading at most `amount` of a body yields; a negative amount reads it all. */
  function ReadBytes(amount: int, length: nat): nat {
    if amount < 0 || length <= amount then length else amount
  }

  /** What one response costs and yields. */
  datatype Receipt = Receipt(read: nat, result: Result<string>)

  /** A JSON body is read one byte past what remains, so that an overshoot is noticed. */
  function ReceiveJson(reply: Reply, remaining: int): Receipt {
    match reply
    case HttpError(_) => Receipt(0, Raised(GithubHttpError))
    case TransportError => Receipt(0, Raised(GithubTransportError))
    case OtherFailure => Receipt(0, Raised(Uncaught))
    case Body(length, content) =>
      var raw := ReadBytes(remaining + 1, length);
      if raw > remaining then Receipt(raw, Raised(JsonBudgetExceeded))
      else if content.None? then Receipt(raw, Raised(InvalidJson))
      else Receipt(raw, Returned(content.value))
  }

  /** What asking for an archive raises when it is not answered with a redirect. */
  function RedirectFailure(reply: Reply): Code {
    match reply
    case Body(_, _) => ArtifactRedirectMissing
    case TransportError => ArtifactTransportError
    case OtherFailure => Uncaught
    case HttpError(_) => ArtifactHttpError
  }

  function ReceiveMerge(reply: Reply): Receipt {
    match reply
    case HttpError(status) =>
      Receipt(0, Raised(if status in {401, 403, 404, 405, 409, 422} then MergeRejected else MergeOutcomeUnknown))
    case TransportError => Receipt(0, Raised(MergeOutcomeUnknown))
    case OtherFailure => Receipt(0, Raised(MergeOutcomeUnknown))
    case Body(length, content) =>
      var raw := ReadBytes(MAX_RESPONSE_BYTES + 1, length);
      if raw > MAX_RESPONSE_BYTES || content.None? || !IsSha(content.value) then Receipt(raw, Raised(MergeOutcomeUnknown))
      else Receipt(raw, Returned(content.value))
  }

  predicate IsSha(text: string) {
    |text| == 40 && forall c :: c in text ==> '0' <= c <= '9' || 'a' <= c <= 'f'
  }

  /** Forty lower-case hexadecimal digits. */
  lemma ShaDigits(text: string)
    ensures IsSha(text) <==> |text| == 40 && forall i :: 0 <= i < 40 ==> '0' <= text[i] <= '9' || 'a' <= text[i] <= 'f'
  {
    assert forall i :: 0 <= i < |text| ==> text[i] in text;
  }

  /** The routes that a GET accepts: inside the repository, without fragments, escapes or `..`. */
  predicate RouteAllowed(route: string) {
    && REPOSITORY_PREFIX + "/" <= route
    && '#' !in route && '\\' !in route && (forall c :: c in route ==> c >= ' ')
    && ".." !in Split(route[..IndexOf(route, '?')], '/')
  }

  /** What an allowed route is: its path lies in the repository and never goes up. */
  lemma RouteMeans(route: string, segments: seq<string>, query: string)
    requires segments != [] && forall s :: s in segments ==> '/' !in s && '?' !in s
    requires query != "" ==> query[0] == '?'
    requires route == Join(segments, "/") + query
    ensures RouteAllowed(route) <==>
      && "/repos/openboa-ai/openboa/" <= route && ".." !in segments
      && forall c :: c in route ==> c >= ' ' && c != '#' && c != '\\'
  {
    var path := Join(segments, "/");
    SplitOfJoin(segments, '/');
    JoinLacks(segments, '/', '?');
    assert route[..|path|] == path;
    if query == "" {
      assert route == path;
      IndexOfNone(path, '?');
    } else {
      assert route == path + ['?'] + query[1..];
      IndexOfFirst(path, '?', query[1..]);
    }
    assert "/repos/openboa-ai/openboa/" == REPOSITORY_PREFIX + "/";
  }

  class WriterApi {
    const clock: nat -> int
    const allowWrite: bool
    var tick: nat
    var started: int
    var phaseStarted: int
    var phaseRequests: nat
    var requests: seq<Request>
    var bytes: nat
    var downloaded: nat
    var sent: bool
    ghost var raised: bool  // some read or write has raised

    ghost predicate Valid()
      reads this
    {
      && phaseRequests <= |requests| <= 300
      && |requests| - phaseRequests <= 100
      && bytes + downloaded <= 75 * 1024 * 1024 + 1
      && PutCount(requests) == (if sent then 1 else 0)
      && (sent ==> allowWrite)
    }

    /** The read of the byte that overshot the budget has happened, and nothing succeeds any more. */
    predicate Overdrawn()
      reads this`bytes, this`downloaded
    {
      bytes + downloaded > MAX_BYTES
    }

    /** Room in the request budgets for `n` more requests. */
    predicate Affords(n: nat)
      reads this`requests, this`phaseRequests
    {
      |requests| + n <= 300 && |requests| - phaseRequests + n <= 100
    }

    /** Some clock reading from tick `from` on exceeds the time of the run or of the phase. */
    ghost predicate OutOfTime(from: nat)
      reads this`tick, this`started, this`phaseStarted
    {
      exists t :: from <= t < tick && (clock(t) - started >= 600 || clock(t) - phaseStarted >= 120)
    }

    constructor (allowWrite: bool, clock: nat -> int)
      ensures Valid() && !sent && !raised && requests == [] && this.allowWrite == allowWrite && this.clock == clock
      ensures !Overdrawn() && Affords(MAX_PHASE_REQUESTS)
    {
      this.clock, this.allowWrite := clock, allowWrite;
      tick, started, phaseStarted, phaseRequests := 2, clock(0), clock(1), 0;
      requests, bytes, downloaded, sent, raised := [], 0, 0, false, false;
    }

    method Now() returns (now: int)
      modifies this`tick
      ensures now == clock(old(tick)) && tick == old(tick) + 1
    {
      now, tick := clock(tick), tick + 1;
    }

    method BeginPhase()
      requires Valid()
      modifies this`tick, this`phaseStarted, this`phaseRequests
      ensures Valid() && Affords(0)
      ensures phaseStarted == clock(old(tick)) && phaseRequests == |requests| && tick == old(tick) + 1
    {
      phaseStarted := Now();
      phaseRequests := |requests|;
    }

    /** Appends one request to the ledger. */
    method Record(request: Request)
      modifies this`requests
      ensures requests == old(requests) + [request]
      ensures PutCount(requests) == PutCount(old(requests)) + if request.PutRequest? then 1 else 0
    {
      PutCountNext(requests, request);
      requests := requests + [request];
    }

    /** Appends a read that the budgets afford. */
    method RecordRead(request: Request)
      requires Valid() && Affords(1) && !request.PutRequest?
      modifies this`requests
      ensures Valid() && requests == old(requests) + [request]
      ensures forall n: nat :: old(Affords(n + 1)) ==> Affords(n)
    {
      Record(request);
    }

    /** Admits `n` requests only when they are affordable and there is time; otherwise says which is short. */
    method Budget(n: nat) returns (error: Option<Code>)
      modifies this`tick
      ensures old(tick) < tick
      ensures error == None ==>
        && Affords(n) && tick == old(tick) + 2
        && clock(old(tick)) - started < 600 && clock(old(tick) + 1) - phaseStarted < 120
      ensures error.Some? ==> error.value in {WriterTotalBudgetExceeded, WriterCollectionBudgetExceeded}
      ensures error.Some? && Affords(n) ==> OutOfTime(old(tick))
    {
      var now := Now();
      if !(now - started < MAX_SECONDS && |requests| + n <= MAX_REQUESTS) {
        assert clock(old(tick)) == now;
        return Some(WriterTotalBudgetExceeded);
      }
      now := Now();
      if !(now - phaseStarted < MAX_PHASE_SECONDS && |requests| - phaseRequests + n <= MAX_PHASE_REQUESTS) {
        assert clock(old(tick) + 1) == now;
        return Some(WriterCollectionBudgetExceeded);
      }
      return None;
    }

    /**
     One GET: at most one request; a normal return leaves the counted bytes within budget, and
     the read that overshoots does so by one byte and ends the use of the client. It raises only
     for want of requests, time or bytes, for its route, or for what it is answered.
     */
    method Get(route: string, reply: Reply) returns (result: Result<string>)
      requires Valid()
      modifies this`tick, this`requests, this`bytes, this`raised
      ensures Valid() && old(tick) < tick && raised == (old(raised) || result.Raised?)
      ensures requests == old(requests) || requests == old(requests) + [GetRequest(route)]
      ensures requests == old(requests) ==>
                result.Raised? && (!old(Affords(1)) || OutOfTime(old(tick)) || !RouteAllowed(route))
      ensures result.Returned? ==>
        && RouteAllowed(route) && reply.Body? && reply.content == Some(result.value)
        && bytes == old(bytes) + reply.length && !Overdrawn()
        && requests == old(requests) + [GetRequest(route)]
      ensures result.Raised? && requests != old(requests) ==>
        !(reply.Body? && reply.content.Some? && old(bytes) + downloaded + reply.length <= MAX_BYTES)
      ensures old(Overdrawn()) ==> result.Raised? && bytes == old(bytes)
      ensures bytes > old(bytes) ==> reply.Body? && bytes - old(bytes) <= reply.length
      ensures result.Raised? && old(Affords(1)) ==> result.code in {WriterTotalBudgetExceeded, WriterCollectionBudgetExceeded} ==> OutOfTime(old(tick))
    {
      var refused := RefuseGet(route);
      if refused.Some? {
        result := Raised(refused.value);
      } else {
        RecordRead(GetRequest(route));
        var receipt := ReceiveJson(reply, MAX_BYTES - downloaded - bytes);
        bytes := bytes + receipt.read;
        result := receipt.result;
      }
      raised := raised || result.Raised?;
    }

    /** The guards in front of a GET. */
    method RefuseGet(route: string) returns (refused: Option<Code>)
      requires Valid()
      modifies this`tick
      ensures Valid() && old(tick) < tick
      ensures refused.None? ==> Affords(1) && RouteAllowed(route)
      ensures refused.Some? ==> !Affords(1) || OutOfTime(old(tick)) || !RouteAllowed(route)
      ensures refused.Some? && Affords(1) && refused.value in {WriterTotalBudgetExceeded, WriterCollectionBudgetExceeded} ==>
                OutOfTime(old(tick))
    {
      var error := Budget(1);
      if error.Some? {
        return error;
      }
      if !RouteAllowed(route) {
        return Some(ApiRouteRejected);
      }
      var now := Now();
      if |requests| >= MAX_REQUESTS || now - started > MAX_SECONDS {
        assert clock(old(tick) + 2) == now;
        return Some(CollectionBudgetExceeded);
      }
      return None;
    }

    /** What a download may still add to the ledger. */
    function ArchiveLimit(): int
      reads this`bytes, this`downloaded
    {
      var left := MAX_BYTES - bytes - downloaded;
      if MAX_ARCHIVE_BYTES <= left then MAX_ARCHIVE_BYTES else left
    }

    /**
     A download counts its bytes only when the archive fits; it never overshoots the ledger. It
     raises only for want of requests, time or bytes, for its id, or for what it is answered.
     */
    method DownloadArtifact(id: int, reply: ArtifactReply) returns (result: Result<nat>)
      requires Valid()
      modifies this`tick, this`requests, this`downloaded, this`raised
      ensures Valid() && old(tick) < tick && raised == (old(raised) || result.Raised?)
      ensures old(requests) <= requests && |requests| <= |old(requests)| + 2
      ensures result.Returned? ==>
        && id > 0 && requests == old(requests) + [ArtifactRequest(id), ArtifactDownload(id)]
        && 0 <= result.value <= MAX_ARCHIVE_BYTES
        && downloaded == old(downloaded) + result.value && !Overdrawn()
        && reply.archive.Body? && result.value == reply.archive.length
      ensures result.Raised? ==> downloaded == old(downloaded)
      ensures result.Raised? ==>
        || !old(Affords(2)) || OutOfTime(old(tick)) || id <= 0 || bytes + old(downloaded) >= MAX_BYTES
        || reply.redirect != HttpError(302) || !reply.locationAllowed
        || !reply.archive.Body? || reply.archive.length > MAX_ARCHIVE_BYTES
        || bytes + old(downloaded) + reply.archive.length > MAX_BYTES
    {
      var archiveLimit := ArchiveLimit();
      var refused := RefuseDownload(id);
      if refused.None? {
        refused := AskForArchive(id, reply);
      }
      if refused.None? {
        RecordRead(ArtifactDownload(id));
        result := ReceiveArchive(reply.archive, archiveLimit);
      } else {
        result := Raised(refused.value);
      }
      raised := raised || result.Raised?;
    }

    /** The first request of a download, and the guards in front of the second. */
    method AskForArchive(id: int, reply: ArtifactReply) returns (refused: Option<Code>)
      requires Valid() && Affords(2)
      modifies this`tick, this`requests
      ensures Valid() && Affords(1) && old(tick) <= tick && requests == old(requests) + [ArtifactRequest(id)]
      ensures refused.None? ==> reply.redirect == HttpError(302) && reply.locationAllowed
      ensures refused.Some? ==> reply.redirect != HttpError(302) || !reply.locationAllowed || OutOfTime(old(tick))
    {
      assert Affords(1 + 1);
      RecordRead(ArtifactRequest(id));
      refused := RefuseRedirect(reply);
    }

    /** The guards in front of a download. */
    method RefuseDownload(id: int) returns (refused: Option<Code>)
      requires Valid()
      modifies this`tick
      ensures Valid() && old(tick) < tick
      ensures refused.None? ==> Affords(2) && id > 0 && bytes + downloaded < MAX_BYTES
      ensures refused.Some? ==> !Affords(2) || OutOfTime(old(tick)) || id <= 0 || bytes + downloaded >= MAX_BYTES
    {
      var error := Budget(2);
      if error.Some? {
        return error;
      }
      if ArchiveLimit() <= 0 {
        return Some(WriterByteBudgetExceeded);
      }
      if id <= 0 || |requests| + 2 > MAX_REQUESTS {
        return Some(ArtifactRequestBudgetOrIdentity);
      }
      return None;
    }

    /** The archive is fetched only after a redirect to an allowed place, and in time. */
    method RefuseRedirect(reply: ArtifactReply) returns (refused: Option<Code>)
      modifies this`tick
      ensures old(tick) <= tick
      ensures refused.None? ==> reply.redirect == HttpError(302) && reply.locationAllowed
      ensures refused.Some? ==> reply.redirect != HttpError(302) || !reply.locationAllowed || OutOfTime(old(tick))
    {
      if reply.redirect != HttpError(302) {
        return Some(RedirectFailure(reply.redirect));
      }
      if !reply.locationAllowed {
        return Some(ArtifactDownloadOriginRejected);
      }
      var now := Now();
      if now - started > MAX_SECONDS {
        assert clock(old(tick)) == now;
        return Some(CollectionBudgetExceeded);
      }
      return None;
    }

    /** Counts the bytes of an archive that fits. */
    method ReceiveArchive(archive: Reply, limit: int) returns (result: Result<nat>)
      requires limit > 0
      modifies this`downloaded
      ensures result.Returned? <==> archive.Body? && archive.length <= limit
      ensures result.Returned? ==> result.value == archive.length && downloaded == old(downloaded) + archive.length
      ensures result.Raised? ==> downloaded == old(downloaded)
    {
      match archive {
        case Body(length, _) =>
          var raw := ReadBytes(limit + 1, length);
          if raw > limit {
            return Raised(ArtifactCompressedBudgetExceeded);
          }
          downloaded := downloaded + raw;
          return Returned(raw);
        case _ =>
          return Raised(if archive.OtherFailure? then Uncaught else ArtifactDownloadError);
      }
    }

    /** Some clock reading since `from` is past the time at which a PUT may still be sent. */
    ghost predicate TooLateToMerge(from: nat)
      reads this`tick, this`started, this`phaseStarted
    {
      OutOfTime(from) || exists t :: from <= t < tick && (clock(t) - started > 540 || clock(t) - phaseStarted > 60)
    }

    /** Nothing but the time stands in the way of a PUT. */
    predicate MayMerge(head: string)
      reads this
    {
      allowWrite && !sent && IsSha(head) && Affords(3) && bytes + downloaded + MAX_RESPONSE_BYTES + 1 <= MAX_BYTES
    }

    /** Everything that must hold before a PUT may be sent. */
    method RefuseMerge(head: string) returns (refused: Option<Code>)
      requires Valid()
      modifies this`tick
      ensures Valid() && old(tick) <= tick
      ensures refused.Some? ==> refused.value != MergeOutcomeUnknown
      ensures refused.Some? && MayMerge(head) ==> TooLateToMerge(old(tick))
      ensures refused.None? ==>
        && allowWrite && !sent && IsSha(head)
        && Affords(3) && bytes + downloaded + MAX_RESPONSE_BYTES + 1 <= MAX_BYTES
        && old(tick) + 4 == tick
        && clock(tick - 2) - started <= 540 && clock(tick - 1) - phaseStarted <= 60
    {
      if !(allowWrite && !sent && IsSha(head)) {
        return Some(WriteNotEnabledOrAlreadyAttempted);
      }
      var error := Budget(1);
      if error.Some? {
        return error;
      }
      var reserved := Reserve();
      if !reserved {
        return Some(InsufficientMergeReconciliationBudget);
      }
      if bytes + downloaded + MAX_RESPONSE_BYTES + 1 > MAX_BYTES {
        return Some(InsufficientMergeResponseByteBudget);
      }
      return None;
    }

    /**
     The PUT. Once it is sent no later call sends another, the request budgets still afford two
     reads, the bytes are within budget and a minute is left of each time budget; every failure
     after it but an explicit rejection reads as an unknown outcome.
     */
    method Merge(head: string, reply: Reply) returns (result: Result<string>)
      requires Valid()
      modifies this`tick, this`requests, this`bytes, this`sent, this`raised
      ensures Valid() && raised == (old(raised) || result.Raised?)
      ensures !sent && old(MayMerge(head)) ==> TooLateToMerge(old(tick))
      ensures requests == (if sent && !old(sent) then old(requests) + [PutRequest(head)] else old(requests))
      ensures old(sent) ==> sent && result.Raised?
      ensures sent && !old(sent) ==>
        && allowWrite && IsSha(head)
        && Affords(2) && !Overdrawn()
        && tick == old(tick) + 4 && clock(tick - 2) - started <= 540 && clock(tick - 1) - phaseStarted <= 60
      ensures sent && !old(sent) ==> result == ReceiveMerge(reply).result
      ensures !sent ==> bytes == old(bytes) && result.Raised? && result.code != MergeOutcomeUnknown
      ensures result.Returned? ==>
        && sent && !old(sent) && IsSha(result.value) && reply.Body? && reply.content == Some(result.value) && reply.length <= MAX_RESPONSE_BYTES
      ensures sent && !old(sent) && result.Raised? ==>
        if reply.HttpError? && reply.status in {401, 403, 404, 405, 409, 422} then result.code == MergeRejected
        else result.code == MergeOutcomeUnknown
    {
      var refused := RefuseMerge(head);
      if refused.Some? {
        raised := true;
        return Raised(refused.value);
      }
      sent := true;
      Record(PutRequest(head));
      var receipt := ReceiveMerge(reply);
      bytes := bytes + receipt.read;
      raised := raised || receipt.result.Raised?;
      return receipt.result;
    }

    /** Keeps room and time for the PUT and the two reads after it. */
    method Reserve() returns (reserved: bool)
      requires Valid()
      modifies this`tick
      ensures old(tick) < tick
      ensures reserved ==>
        && Affords(3) && tick == old(tick) + 2
        && clock(old(tick)) - started <= 540 && clock(old(tick) + 1) - phaseStarted <= 60
      ensures !reserved && Affords(3) ==>
        exists t :: old(tick) <= t < tick && (clock(t) - started > 540 || clock(t) - phaseStarted > 60)
    {
      var now := Now();
      if now - started > 540 {
        assert clock(old(tick)) == now;
        return false;
      }
      now := Now();
      assert clock(old(tick) + 1) == now;
      return now - phaseStarted <= 60 && |requests| + 3 <= MAX_REQUESTS && |requests| - phaseRequests + 3 <= MAX_PHASE_REQUESTS;
    }
  }
}

/**
 * The session registry and QR cache of index.js, with the request handlers
 * that read and change them and the library events that change them.
 *
 * `clients` (index.js:23) maps a user ID to its library client; `qrCodes`
 * (index.js:24) maps a user ID to the last login code the library issued.
 * Each library event is one atomic method call. The callbacks registered at
 * index.js:64-80 close over the client object and its user ID, so an event of
 * a client that has since been replaced still reaches `qrCodes[userId]`.
 * `destroy()` and `sendMessage` are oracles passed in as parameters.
 */
module Sessions {
  import opened Wrappers
  import Dispatch
  import Reports

  /** A library client; only its readiness flag is modelled. */
  class Client {
    /** The user ID the client's callbacks captured. */
    const userId: string
    var isReady: bool

    /** `new Client(...)`: not ready until the library signals `ready`. */
    constructor (userId: string)
      ensures this.userId == userId && !isReady
    {
      this.userId := userId;
      isReady := false;
    }
  }

  /** The `status` field of `/session-status`. */
  datatype Status = NoSession | Ready | NeedsScan | Initializing

  /** The reply of `/get-qr`. */
  datatype QrReply = QrNoSession | QrPending | QrCode(code: string)
  {
    function HttpStatus(): int
    {
      match this
      case QrNoSession => 404
      case QrPending => 202
      case QrCode(_) => 200
    }
  }

  /** The reply of `/start-session`. */
  datatype StartReply = StartInitializing | StartAlreadyActive | StartInternalError
  {
    function HttpStatus(): int
    {
      match this
      case StartInitializing => 200
      case StartAlreadyActive => 400
      case StartInternalError => 500
    }
  }

  /** The reply of `/close-session`. */
  datatype CloseReply = Closed | CloseNotFound
  {
    function HttpStatus(): int
    {
      if Closed? then 200 else 404
    }
  }

  /** The reply of `/send-messages`, its rejections in the order they are tested. */
  datatype SendReply =
    | SendNoSession
    | NothingToSend
    | NoValidNumbers
    | SendInternalError
    | SendDone(summary: Dispatch.Summary, results: seq<Dispatch.SendResult>)
  {
    function HttpStatus(): int
    {
      match this
      case SendDone(_, _) => 200
      case SendInternalError => 500
      case _ => 400
    }
  }

  /** The reply of `/reports/:userId/:labelId/messages`. */
  datatype ReportReply =
    | ReportNoSession
    | ReportLibraryError(message: string)
    | ReportMessages(messages: seq<Reports.ReportEntry>)
  {
    function HttpStatus(): int
    {
      match this
      case ReportNoSession => 400
      case ReportLibraryError(_) => 500
      case ReportMessages(_) => 200
    }
  }

  class Registry {
    var clients: map<string, Client>
    var qrCodes: map<string, string>

    /** Every client is registered under the user ID its callbacks captured. */
    ghost predicate Valid()
      reads this
    {
      forall u :: u in clients ==> clients[u].userId == u
    }

    /** The registry at process start: no client and no code. */
    constructor ()
      ensures Valid() && clients == map[] && qrCodes == map[]
    {
      clients := map[];
      qrCodes := map[];
    }

    /** `qrCodes[userId]` is truthy: present and not the empty string. */
    predicate HasCode(userId: string)
      reads this
    {
      userId in qrCodes && qrCodes[userId] != ""
    }

    /** `clients[userId] && clients[userId].isReady`. */
    predicate IsActive(userId: string)
      reads this, clients.Values
    {
      userId in clients && clients[userId].isReady
    }

    /**
     * `/session-status/:userId` (index.js:113-137): decided by the two maps
     * alone, exactly one status holds.
     */
    function SessionStatus(userId: string): (s: Status)
      reads this, clients.Values
      ensures s == NoSession <==> userId !in clients
      ensures s == Ready <==> IsActive(userId)
      ensures s == NeedsScan <==> userId in clients && !clients[userId].isReady && HasCode(userId)
      ensures s == Initializing <==> userId in clients && !clients[userId].isReady && !HasCode(userId)
    {
      if userId !in clients then NoSession
      else if clients[userId].isReady then Ready
      else if HasCode(userId) then NeedsScan
      else Initializing
    }

    /**
     * `/get-qr/:userId` (index.js:93-111): 404 without a client, 202 without a
     * code, otherwise the cached code. Readiness is not consulted.
     */
    function GetQr(userId: string): (r: QrReply)
      reads this
      ensures r.QrNoSession? <==> userId !in clients
      ensures r.QrPending? <==> userId in clients && !HasCode(userId)
      ensures r.QrCode? ==> userId in qrCodes && r.code == qrCodes[userId] && r.code != ""
    {
      if userId !in clients then QrNoSession
      else if !HasCode(userId) then QrPending
      else QrCode(qrCodes[userId])
    }

    /** The two read-only handlers agree with each other. */
    lemma QrAgreesWithStatus(userId: string)
      ensures GetQr(userId).QrNoSession? <==> SessionStatus(userId) == NoSession
      ensures SessionStatus(userId) == NeedsScan ==> GetQr(userId) == QrCode(qrCodes[userId])
      ensures SessionStatus(userId) == Initializing ==> GetQr(userId) == QrPending
    {
    }

    /**
     * `/start-session` (index.js:27-91). A ready client is refused with 400
     * and nothing changes. A client that is not ready is destroyed first; its
     * `destroy()` is awaited outside any inner `try`, so a failure (`destroyFails`)
     * ends in the handler's catch with 500 and the old client stays. Otherwise
     * a fresh, not-ready client is registered. The QR cache is never touched.
     */
    method StartSession(userId: string, destroyFails: bool) returns (reply: StartReply, client: Client?)
      requires Valid()
      modifies this
      ensures Valid()
      ensures qrCodes == old(qrCodes)
      ensures forall u :: u != userId ==> SessionStatus(u) == old(SessionStatus(u))
      ensures old(IsActive(userId)) ==>
                reply == StartAlreadyActive && client == null && clients == old(clients)
      ensures !old(IsActive(userId)) && userId in old(clients) && destroyFails ==>
                reply == StartInternalError && client == null && clients == old(clients)
      ensures !old(IsActive(userId)) && (userId !in old(clients) || !destroyFails) ==>
                && reply == StartInitializing
                && client != null && fresh(client)
                && client.userId == userId && !client.isReady
                && clients == old(clients)[userId := client]
    {
      if userId in clients && clients[userId].isReady {
        return StartAlreadyActive, null;
      }
      if userId in clients {
        if destroyFails {
          return StartInternalError, null;
        }
        clients := clients - {userId};
      }
      var c := new Client(userId);
      clients := clients[userId := c];
      return StartInitializing, c;
    }

    /**
     * `/close-session` (index.js:139-181). An absent user gets 404 and nothing
     * changes. Otherwise the client is destroyed whatever its readiness, a
     * failing `destroy()` is only logged, and both the client and the code are
     * removed. `destroyFails` is not read: it is there to show that neither the
     * reply nor the new state depends on how `destroy()` ends.
     */
    method CloseSession(userId: string, destroyFails: bool) returns (reply: CloseReply)
      requires Valid()
      modifies this
      ensures Valid()
      ensures forall u :: u != userId ==> SessionStatus(u) == old(SessionStatus(u))
      ensures userId !in old(clients) ==>
                reply == CloseNotFound && clients == old(clients) && qrCodes == old(qrCodes)
      ensures userId in old(clients) ==>
                reply == Closed && clients == old(clients) - {userId} && qrCodes == old(qrCodes) - {userId}
    {
      if userId !in clients {
        return CloseNotFound;
      }
      // A failing `destroy()` is caught by the inner try and only logged.
      clients := clients - {userId};
      qrCodes := qrCodes - {userId};
      return Closed;
    }

    /** The `qr` callback (index.js:64-67): overwrites the code of the captured user. */
    method OnQr(client: Client, qr: string)
      requires Valid()
      modifies this
      ensures Valid()
      ensures clients == old(clients)
      ensures qrCodes == old(qrCodes)[client.userId := qr]
      ensures forall u :: u != client.userId ==> SessionStatus(u) == old(SessionStatus(u))
    {
      qrCodes := qrCodes[client.userId := qr];
    }

    /**
     * The `ready` callback (index.js:68-73): the captured client becomes ready
     * and the code of the captured user is dropped, even if that client has
     * since been replaced.
     */
    method OnReady(client: Client)
      requires Valid()
      modifies this, client
      ensures Valid()
      ensures client.isReady
      ensures clients == old(clients)
      ensures qrCodes == old(qrCodes) - {client.userId}
      ensures client.userId in clients && clients[client.userId] == client ==>
                SessionStatus(client.userId) == Ready
      ensures forall u :: u != client.userId ==> SessionStatus(u) == old(SessionStatus(u))
    {
      client.isReady := true;
      qrCodes := qrCodes - {client.userId};
    }

    /**
     * The `disconnected` callback (index.js:77-80): the client is no longer
     * ready, but it stays registered and the QR cache is kept.
     */
    method OnDisconnected(client: Client)
      requires Valid()
      modifies client
      ensures Valid()
      ensures !client.isReady
      ensures forall u :: u != client.userId ==> SessionStatus(u) == old(SessionStatus(u))
      ensures client.userId in clients && clients[client.userId] == client ==>
                SessionStatus(client.userId) in {NeedsScan, Initializing}
    {
      client.isReady := false;
    }

    /**
     * `/send-messages` (index.js:183-257). Rejected, before any send and in
     * this order: no ready client; no message and no media; numbers not an
     * array or empty. Otherwise the loop runs: one result per number, in input
     * order, and a summary whose counts add up to the total. A number that is
     * not a string ends the request with 500 after the sends before it.
     */
    method SendMessages(userId: string, numbers: Option<seq<Dispatch.JsonItem>>,
                        mensajesPorNumero: seq<string>, hasMedia: bool,
                        outcomeOf: nat -> Dispatch.SendOutcome)
      returns (reply: SendReply, sent: seq<Dispatch.Send>)
      ensures !IsActive(userId) ==> reply == SendNoSession && sent == []
      ensures IsActive(userId) && mensajesPorNumero == [] && !hasMedia ==>
                reply == NothingToSend && sent == []
      ensures IsActive(userId) && (mensajesPorNumero != [] || hasMedia)
              && (numbers.None? || numbers.value == []) ==>
                reply == NoValidNumbers && sent == []
      ensures IsActive(userId) && (mensajesPorNumero != [] || hasMedia)
              && numbers.Some? && numbers.value != [] ==>
                reply.SendDone? || reply.SendInternalError?
      ensures reply.SendDone? || reply.SendInternalError? ==>
                IsActive(userId) && (mensajesPorNumero != [] || hasMedia)
                && numbers.Some? && numbers.value != []
      ensures reply.SendDone? ==>
                && |reply.results| == |numbers.value| == |sent|
                && reply.summary.total == |numbers.value|
                && reply.summary.succeeded + reply.summary.failed == reply.summary.total
                && reply.summary.succeeded == Dispatch.CountSucceeded(reply.results)
                && reply.summary.failed == Dispatch.CountFailed(reply.results)
                && forall i :: 0 <= i < |numbers.value| ==>
                     && numbers.value[i].JString?
                     && reply.results[i] == Dispatch.ResultFor(numbers.value[i].text, outcomeOf(i))
                     && sent[i] == Dispatch.SendFor(numbers.value[i].text, mensajesPorNumero, hasMedia, i)
      ensures reply.SendInternalError? ==>
                |sent| < |numbers.value| && numbers.value[|sent|].JOther?
                && forall i :: 0 <= i < |sent| ==>
                     numbers.value[i].JString?
                     && sent[i] == Dispatch.SendFor(numbers.value[i].text, mensajesPorNumero, hasMedia, i)
    {
      if !(userId in clients && clients[userId].isReady) {
        return SendNoSession, [];
      }
      if |mensajesPorNumero| == 0 && !hasMedia {
        return NothingToSend, [];
      }
      if numbers.None? || |numbers.value| == 0 {
        return NoValidNumbers, [];
      }
      var results, aborted;
      results, sent, aborted := Dispatch.SendAll(numbers.value, mensajesPorNumero, hasMedia, outcomeOf);
      if aborted {
        return SendInternalError, sent;
      }
      reply := SendDone(Dispatch.Summarize(|numbers.value|, results), results);
    }

    /**
     * `/reports/:userId/:labelId/messages` (index.js:289-322): 400 without a
     * ready client; a library failure is passed through with its message;
     * otherwise the report of the chats.
     */
    method Report(userId: string, fetched: Result<seq<Reports.Chat>, string>)
      returns (reply: ReportReply)
      ensures !IsActive(userId) ==> reply == ReportNoSession
      ensures IsActive(userId) && fetched.Failure? ==> reply == ReportLibraryError(fetched.error)
      ensures IsActive(userId) && fetched.Success? ==>
                reply == ReportMessages(Reports.ReportOf(fetched.value))
    {
      if !(userId in clients && clients[userId].isReady) {
        return ReportNoSession;
      }
      match fetched {
        case Failure(message) =>
          reply := ReportLibraryError(message);
        case Success(chats) =>
          var reportData := Reports.BuildReport(chats);
          reply := ReportMessages(reportData);
      }
    }
  }

  /**
   * Start, a login code, then `ready`: the status goes from `needs_scan` (or
   * `initializing` for an empty code) to `ready`, and `/get-qr` answers 202.
   */
  method LoginScenario(userId: string, code: string)
    returns (afterQr: Status, afterReady: Status, qr: QrReply)
    ensures afterQr == (if code == "" then Initializing else NeedsScan)
    ensures afterReady == Ready
    ensures qr == QrPending && qr.HttpStatus() == 202
  {
    var registry := new Registry();
    var started, client := registry.StartSession(userId, false);
    registry.OnQr(client, code);
    afterQr := registry.SessionStatus(userId);
    registry.OnReady(client);
    afterReady := registry.SessionStatus(userId);
    qr := registry.GetQr(userId);
  }

  /** A second start while the first session is ready is refused; the first stays. */
  method RestartWhileReady(userId: string, destroyFails: bool)
    returns (first: StartReply, second: StartReply, status: Status)
    ensures first == StartInitializing
    ensures second == StartAlreadyActive && second.HttpStatus() == 400
    ensures status == Ready
  {
    var registry := new Registry();
    var client, again;
    first, client := registry.StartSession(userId, destroyFails);
    registry.OnReady(client);
    second, again := registry.StartSession(userId, destroyFails);
    status := registry.SessionStatus(userId);
  }

  /**
   * A restart replaces a client that never became ready; the old client's
   * later `qr` event still fills the cache, and its `ready` event empties it
   * without making the new client ready.
   */
  method StaleClientScenario(userId: string, code: string)
    returns (afterStaleQr: Status, afterStaleReady: Status)
    requires code != ""
    ensures afterStaleQr == NeedsScan
    ensures afterStaleReady == Initializing
  {
    var registry := new Registry();
    var r1, old1 := registry.StartSession(userId, false);
    var r2, new2 := registry.StartSession(userId, false);
    registry.OnQr(old1, code);
    afterStaleQr := registry.SessionStatus(userId);
    registry.OnReady(old1);
    afterStaleReady := registry.SessionStatus(userId);
  }

  /** Closing with a failing `destroy()` still removes the session and its code. */
  method CloseDespiteFailedDestroy(userId: string, code: string)
    returns (reply: CloseReply, status: Status, qr: QrReply, again: CloseReply)
    ensures reply == Closed
    ensures status == NoSession && qr == QrNoSession
    ensures again == CloseNotFound && again.HttpStatus() == 404
  {
    var registry := new Registry();
    var started, client := registry.StartSession(userId, false);
    registry.OnQr(client, code);
    reply := registry.CloseSession(userId, true);
    status := registry.SessionStatus(userId);
    qr := registry.GetQr(userId);
    again := registry.CloseSession(userId, true);
  }
}

/** The connection status the bot keeps for its status page: the QR code
    data URL, a human-readable status text and the authenticated flag,
    overwritten by the WhatsApp client's lifecycle callbacks. */
module ConnectionStatus {

  datatype Option<T> = None | Some(value: T)

  /** The status texts. */
  const Starting: string := "Iniciando..."
  const AwaitingScan: string := "Aguardando scan do QR Code."
  const Connected: string := "Conectado! 🤖"
  const Reconnecting: string := "Desconectado. Tentando reconectar..."
  const ReinitError: string := "Erro crítico. Verifique os logs."
  const InitError: string := "Erro ao inicializar. Verifique os logs."

  /** The three status variables, as the `/status` endpoint reports them. */
  datatype Record = Record(qr: Option<string>, status: string, authenticated: bool)

  /** The lifecycle callbacks that write the record. `QrReceived` carries the
      data URL the QR code was encoded to. */
  datatype Event =
    | QrReceived(dataUrl: string)
    | Ready
    | Disconnected
    | ReinitFailed
    | InitFailed

  const Initial: Record := Record(None, Starting, false)

  /** One callback's writes. */
  function Step(r: Record, e: Event): Record {
    match e
    case QrReceived(url) => Record(Some(url), AwaitingScan, false)
    case Ready => Record(None, Connected, true)
    case Disconnected => r.(status := Reconnecting, authenticated := false)
    case ReinitFailed => r.(status := ReinitError)
    case InitFailed => r.(status := InitError)
  }

  /** The record after the callbacks `events` ran, one at a time, in order. */
  function Run(r: Record, events: seq<Event>): Record
    decreases |events|
  {
    if events == [] then r else Step(Run(r, events[..|events| - 1]), events[|events| - 1])
  }

  /** What holds of every record the callbacks can produce: the status is
      one of the six texts, an authenticated record shows no QR code, a record
      waiting for a scan has one, and "connected" means authenticated. */
  predicate Consistent(r: Record) {
    r.status in {Starting, AwaitingScan, Connected, Reconnecting, ReinitError, InitError} &&
    (r.authenticated ==> r.qr == None) &&
    (r.status == AwaitingScan ==> r.qr.Some?) &&
    (r.status == Connected ==> r.authenticated)
  }

  predicate LosesAuthentication(e: Event) {
    e.QrReceived? || e.Disconnected?
  }

  /** Each callback writes exactly the fields it names: a QR code sets the
      code and clears the flag, `ready` clears the code and sets the flag,
      `disconnected` clears the flag but keeps the code, and the two
      initialisation failures touch only the status text. */
  lemma StepWrites(r: Record, e: Event)
    ensures e.QrReceived? ==> Step(r, e).qr == Some(e.dataUrl) && !Step(r, e).authenticated
    ensures e.Ready? ==> Step(r, e).qr == None && Step(r, e).authenticated
    ensures e.Disconnected? ==> Step(r, e).qr == r.qr && !Step(r, e).authenticated && Step(r, e).status == Reconnecting
    ensures e.ReinitFailed? || e.InitFailed? ==>
      Step(r, e).qr == r.qr && Step(r, e).authenticated == r.authenticated
  {
  }

  lemma StepPreservesConsistent(r: Record, e: Event)
    requires Consistent(r)
    ensures Consistent(Step(r, e))
  {
  }

  /** Every record reachable from a consistent one is consistent. */
  lemma {:induction false} RunPreservesConsistent(r: Record, events: seq<Event>)
    requires Consistent(r)
    ensures Consistent(Run(r, events))
    decreases |events|
  {
    if events != [] {
      RunPreservesConsistent(r, events[..|events| - 1]);
      StepPreservesConsistent(Run(r, events[..|events| - 1]), events[|events| - 1]);
    }
  }

  /** The record the process starts with is consistent, so every record the
      status endpoint can ever report is. */
  lemma ReachableIsConsistent(events: seq<Event>)
    ensures Consistent(Run(Initial, events))
  {
    RunPreservesConsistent(Initial, events);
  }

  /** The bot reports itself authenticated exactly when some `ready` happened
      and no QR code or disconnection came after it. */
  lemma {:induction false} AuthenticatedIffReadySinceLoss(events: seq<Event>)
    ensures Run(Initial, events).authenticated <==>
      exists i :: 0 <= i < |events| && events[i] == Ready &&
        forall j :: i < j < |events| ==> !LosesAuthentication(events[j])
    decreases |events|
  {
    if events != [] {
      var n := |events| - 1;
      var init := events[..n];
      AuthenticatedIffReadySinceLoss(init);
      if Run(Initial, events).authenticated && events[n] != Ready {
        assert !LosesAuthentication(events[n]);
        var i :| 0 <= i < n && init[i] == Ready &&
          forall j :: i < j < n ==> !LosesAuthentication(init[j]);
        assert events[i] == Ready;
      }
      if i :| (0 <= i < |events| && events[i] == Ready &&
               forall j :: i < j < |events| ==> !LosesAuthentication(events[j])) {
        if i < n {
          assert init[i] == Ready;
          assert forall j :: i < j < n ==> !LosesAuthentication(init[j]) by {
            forall j | i < j < n ensures !LosesAuthentication(init[j]) {
              assert init[j] == events[j];
            }
          }
        }
      }
    }
  }

  /** A QR code stays on the status page until a new QR code or `ready`
      replaces it; a disconnection does not remove it. */
  lemma {:induction false} QrShownUntilReplaced(events: seq<Event>, url: string)
    ensures Run(Initial, events).qr == Some(url) <==>
      exists i :: 0 <= i < |events| && events[i] == QrReceived(url) &&
        forall j :: i < j < |events| ==> !events[j].QrReceived? && !events[j].Ready?
    decreases |events|
  {
    if events != [] {
      var n := |events| - 1;
      var init := events[..n];
      QrShownUntilReplaced(init, url);
      if Run(Initial, events).qr == Some(url) && events[n] != QrReceived(url) {
        var i :| 0 <= i < n && init[i] == QrReceived(url) &&
          forall j :: i < j < n ==> !init[j].QrReceived? && !init[j].Ready?;
        assert events[i] == QrReceived(url);
      }
      if i :| (0 <= i < |events| && events[i] == QrReceived(url) &&
               forall j :: i < j < |events| ==> !events[j].QrReceived? && !events[j].Ready?) {
        if i < n {
          assert init[i] == QrReceived(url);
          assert forall j :: i < j < n ==> !init[j].QrReceived? && !init[j].Ready? by {
            forall j | i < j < n ensures !init[j].QrReceived? && !init[j].Ready? {
              assert init[j] == events[j];
            }
          }
        }
      }
    }
  }

  /** The module-level status variables and their callbacks. */
  class Status {
    var qrCodeDataUrl: Option<string>
    var botStatus: string
    var isAuthenticated: bool

    function Current(): Record
      reads this
    {
      Record(qrCodeDataUrl, botStatus, isAuthenticated)
    }

    constructor ()
      ensures Current() == Initial
      ensures Consistent(Current())
    {
      qrCodeDataUrl := None;
      botStatus := Starting;
      isAuthenticated := false;
    }

    /** The `'qr'` callback, once the QR code has been encoded to `dataUrl`. */
    method OnQr(dataUrl: string)
      modifies this
      ensures Current() == Step(old(Current()), QrReceived(dataUrl))
      ensures qrCodeDataUrl == Some(dataUrl) && botStatus == AwaitingScan && !isAuthenticated
      ensures Consistent(Current())
    {
      qrCodeDataUrl := Some(dataUrl);
      botStatus := AwaitingScan;
      isAuthenticated := false;
    }

    /** The `'ready'` callback. */
    method OnReady()
      modifies this
      ensures Current() == Step(old(Current()), Ready)
      ensures qrCodeDataUrl == None && botStatus == Connected && isAuthenticated
      ensures Consistent(Current())
    {
      qrCodeDataUrl := None;
      botStatus := Connected;
      isAuthenticated := true;
    }

    /** The `'disconnected'` callback: it keeps the QR code and asks the
        client to initialise again (`reinitialize`). */
    method OnDisconnected() returns (reinitialize: bool)
      modifies this
      ensures Current() == Step(old(Current()), Disconnected)
      ensures qrCodeDataUrl == old(qrCodeDataUrl) && botStatus == Reconnecting && !isAuthenticated
      ensures Consistent(old(Current())) ==> Consistent(Current())
      ensures reinitialize
    {
      botStatus := Reconnecting;
      isAuthenticated := false;
      reinitialize := true;
    }

    /** The rejection handler of the re-initialisation a disconnection starts. */
    method OnReinitFailed()
      modifies this
      ensures Current() == Step(old(Current()), ReinitFailed)
      ensures unchanged(this`qrCodeDataUrl, this`isAuthenticated) && botStatus == ReinitError
      ensures Consistent(old(Current())) ==> Consistent(Current())
    {
      botStatus := ReinitError;
    }

    /** The rejection handler of the first initialisation. */
    method OnInitFailed()
      modifies this
      ensures Current() == Step(old(Current()), InitFailed)
      ensures unchanged(this`qrCodeDataUrl, this`isAuthenticated) && botStatus == InitError
      ensures Consistent(old(Current())) ==> Consistent(Current())
    {
      botStatus := InitError;
    }
  }
}

/**
 * The dialog that adds an event to a case: its title by event type, the
 * guard on a blank title, the payload, the error text of a failed request
 * and the form state around a submit.
 */
module EventDialog {
  import opened Wrappers
  import opened Text

  const TitleRequired := "El título es obligatorio"
  const CreateFailed := "No se pudo crear el evento"

  /** The event types the backend knows; any other text reaches the default branch. */
  predicate KnownType(kind: string)
  {
    kind == "MOVEMENT" || kind == "DATE" || kind == "NOTE" || kind == "DOCUMENT"
  }

  /** The dialog's `title`, by event type. */
  function TitleFor(kind: string): (t: string)
    ensures t == "Agregar" <==> !KnownType(kind)
    ensures StartsWith(t, "Agregar")
    ensures kind == "MOVEMENT" ==> t == "Agregar movimiento"
    ensures kind == "DATE" ==> t == "Agregar fecha"
    ensures kind == "NOTE" ==> t == "Agregar nota"
    ensures kind == "DOCUMENT" ==> t == "Agregar documento"
  {
    var t :=
      if kind == "MOVEMENT" then "Agregar movimiento"
      else if kind == "DATE" then "Agregar fecha"
      else if kind == "NOTE" then "Agregar nota"
      else if kind == "DOCUMENT" then "Agregar documento"
      else "Agregar";
    assert t[..7] == "Agregar";
    t
  }

  /** Different known types get different titles. */
  lemma TitlesDistinct(a: string, b: string)
    requires KnownType(a) && KnownType(b) && a != b
    ensures TitleFor(a) != TitleFor(b)
  {
    assert "Agregar movimiento"[8] != "Agregar fecha"[8];
    assert "Agregar movimiento"[8] != "Agregar nota"[8];
    assert "Agregar movimiento"[8] != "Agregar documento"[8];
    assert "Agregar fecha"[8] != "Agregar nota"[8];
    assert "Agregar fecha"[8] != "Agregar documento"[8];
    assert "Agregar nota"[8] != "Agregar documento"[8];
  }

  /** The four states the status select offers. */
  datatype EventStatus = Pending | Scheduled | Urgent | Done

  /** The payload of the create request. */
  datatype Payload = Payload(title: string, description: string, kind: string, status: EventStatus,
                             eventAt: Option<string>, fileUrls: seq<string>)

  /**
   * `toIsoMaybe`: an empty input gives null before any parsing; `parsed` is
   * what parsing and conversion to ISO give for a non-empty input.
   */
  function IsoMaybe(local: string, parsed: Option<string>): Option<string>
  {
    if local == "" then None else parsed
  }

  /**
   * The payload: trimmed title and description, the dialog's type and the
   * chosen status, a date only for `DATE` events, and no files.
   */
  function PayloadFor(title: string, description: string, kind: string, status: EventStatus,
                      local: string, parsed: Option<string>): (p: Payload)
    ensures p.title == Trim(title) && p.description == Trim(description)
    ensures p.kind == kind && p.status == status && p.fileUrls == []
    ensures p.eventAt.Some? ==> kind == "DATE" && local != ""
    ensures kind == "DATE" ==> p.eventAt == IsoMaybe(local, parsed)
  {
    Payload(Trim(title), Trim(description), kind, status,
            if kind == "DATE" then IsoMaybe(local, parsed) else None, [])
  }

  /** A submitted title is never blank and never starts or ends with whitespace. */
  lemma SubmittedTitleClean(title: string, description: string, kind: string, status: EventStatus,
                            local: string, parsed: Option<string>)
    requires !IsBlank(title)
    ensures var t := PayloadFor(title, description, kind, status, local, parsed).title;
      t != [] && !IsSpace(t[0]) && !IsSpace(t[|t| - 1])
  {
  }

  /** `text || \`HTTP ${res.status}\``: the message of a non-ok answer. */
  function FailureText(text: string, status: nat): (m: string)
    ensures m != []
    ensures text != "" ==> m == text
    ensures text == "" ==> StartsWith(m, "HTTP ")
  {
    if text != "" then text else "HTTP " + Decimal(status)
  }

  /** The status can be read back from the fallback message. */
  lemma FailureTextNamesStatus(status: nat)
    ensures var m := FailureText("", status);
      |m| > 5 && ParseDecimal(m[5..]) == status
  {
    var m := FailureText("", status);
    assert m[5..] == Decimal(status);
    DecimalRoundTrip(status);
  }

  /** The answer of the backend: whether it is ok, its status, its text (`None` when reading fails). */
  datatype Answer = Answer(ok: bool, status: nat, text: Option<string>, created: string)

  /**
   * The error a sent request ends with, or none when the event was created.
   * A failure that was thrown carries its message when it is an `Error`.
   */
  function SendError(response: Result<Answer, Option<string>>): (e: Option<string>)
    ensures e.None? <==> response.Success? && response.value.ok
    ensures e.Some? ==> response.Failure? || e.value != []
    ensures response.Success? && !response.value.ok ==>
      e == Some(FailureText(if response.value.text.Some? then response.value.text.value else "", response.value.status))
    ensures response.Failure? && response.error.Some? ==> e == Some(response.error.value)
    ensures response.Failure? && response.error.None? ==> e == Some(CreateFailed)
  {
    match response
    case Failure(thrown) => Some(if thrown.Some? then thrown.value else CreateFailed)
    case Success(answer) =>
      if answer.ok then None
      else Some(FailureText(if answer.text.Some? then answer.text.value else "", answer.status))
  }

  /** The create request: its url and payload. */
  datatype Request = Request(url: string, payload: Payload)

  function EventsUrl(caseId: string): string
  {
    "/api/cases/" + caseId + "/events"
  }

  class Dialog {
    const caseId: string
    /** The event type the dialog was opened for. */
    const kind: string
    var open: bool
    var submitting: bool
    var err: Option<string>
    var eventTitle: string
    var description: string
    var status: EventStatus
    var eventAtLocal: string
    var requests: seq<Request>
    /** The created events handed to `onCreated`, in order. */
    var created: seq<string>

    /** The empty form: no error, empty text fields, status pending. */
    predicate Cleared()
      reads this
    {
      err.None? && eventTitle == "" && description == "" && status == Pending && eventAtLocal == ""
    }

    constructor (caseId: string, kind: string)
      ensures this.caseId == caseId && this.kind == kind
      ensures !open && !submitting && Cleared() && requests == [] && created == []
    {
      this.caseId, this.kind := caseId, kind;
      open, submitting, err := false, false, None;
      eventTitle, description, status, eventAtLocal := "", "", Pending, "";
      requests, created := [], [];
    }

    /** `reset`. */
    method Reset()
      modifies this`err, this`eventTitle, this`description, this`status, this`eventAtLocal
      ensures Cleared()
    {
      eventTitle, description, status, eventAtLocal := "", "", Pending, "";
      err := None;
    }

    /**
     * `onOpenChange`, which the dialog itself calls (its trigger, the close
     * icon, a click outside, Escape): closing this way resets the form.
     */
    method OnOpenChange(v: bool)
      modifies this`open, this`err, this`eventTitle, this`description, this`status, this`eventAtLocal
      ensures open == v
      ensures !v ==> Cleared()
      ensures v ==>
        && err == old(err) && eventTitle == old(eventTitle) && description == old(description)
        && status == old(status) && eventAtLocal == old(eventAtLocal)
    {
      open := v;
      if !v {
        Reset();
      }
    }

    /**
     * The Cancelar button: `setOpen(false)` alone. Changing the controlled
     * `open` prop does not call `onOpenChange`, so nothing is reset: the
     * error and every field are still there when the dialog reopens.
     */
    method Cancel()
      modifies this`open
      ensures !open
      ensures err == old(err) && eventTitle == old(eventTitle) && description == old(description)
      ensures status == old(status) && eventAtLocal == old(eventAtLocal)
    {
      open := false;
    }

    /**
     * `submit`. `parsed` is what `toIsoMaybe` would parse from the date
     * field; `response` is the outcome of the request when one is sent.
     */
    method Submit(parsed: Option<string>, response: Result<Answer, Option<string>>)
      modifies this`open, this`submitting, this`err, this`eventTitle, this`description, this`status,
               this`eventAtLocal, this`requests, this`created
      ensures IsBlank(old(eventTitle)) ==>
        && err == Some(TitleRequired) && submitting == old(submitting) && open == old(open)
        && requests == old(requests) && created == old(created)
        && eventTitle == old(eventTitle) && description == old(description)
        && status == old(status) && eventAtLocal == old(eventAtLocal)
      ensures !IsBlank(old(eventTitle)) ==>
        && !submitting && err == SendError(response)
        && requests == old(requests) + [Request(EventsUrl(caseId),
             PayloadFor(old(eventTitle), old(description), kind, old(status), old(eventAtLocal), parsed))]
      ensures !IsBlank(old(eventTitle)) && SendError(response).None? ==>
        created == old(created) + [response.value.created] && !open && Cleared()
      ensures !IsBlank(old(eventTitle)) && SendError(response).Some? ==>
        && created == old(created) && open == old(open)
        && eventTitle == old(eventTitle) && description == old(description)
        && status == old(status) && eventAtLocal == old(eventAtLocal)
    {
      err := None;
      if Trim(eventTitle) == [] {
        err := Some(TitleRequired);
        return;
      }
      submitting := true;
      var payload := PayloadFor(eventTitle, description, kind, status, eventAtLocal, parsed);
      Send(Request(EventsUrl(caseId), payload), response);
    }

    /** The request is issued; the answer decides between creating and an error. */
    method Send(request: Request, response: Result<Answer, Option<string>>)
      modifies this`open, this`submitting, this`err, this`eventTitle, this`description, this`status,
               this`eventAtLocal, this`requests, this`created
      ensures requests == old(requests) + [request] && !submitting && err == SendError(response)
      ensures SendError(response).None? ==> created == old(created) + [response.value.created] && !open && Cleared()
      ensures SendError(response).Some? ==>
        && created == old(created) && open == old(open)
        && eventTitle == old(eventTitle) && description == old(description)
        && status == old(status) && eventAtLocal == old(eventAtLocal)
    {
      requests := requests + [request];
      var error := SendError(response);
      if error.Some? {
        err := error;
      } else {
        created := created + [response.value.created];
        open := false;
        Reset();
      }
      submitting := false;
    }
  }
}

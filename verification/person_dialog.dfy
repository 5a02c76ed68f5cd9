/**
 * The dialog that adds or edits a person related to a client: the guard on
 * the three required fields, the normalised payload, the endpoint chosen by
 * mode, and the form state around a submit (error, submitting flag, open
 * flag, the five fields).
 */
module PersonDialog {
  import opened Wrappers
  import opened Text

  datatype Mode = Create | Edit

  const MissingFields := "Completá nombre/rol/relación"
  const MissingInitial := "Falta persona inicial"
  const SaveFailed := "Error guardando persona"

  /** A person as the backend returns it; `phone` and `email` may be absent or null. */
  datatype Person = Person(id: string, name: string, role: string, relationship: string,
                           phone: Option<string>, email: Option<string>)

  /** The body of the create and update requests. */
  datatype Payload = Payload(name: string, role: string, relationship: string,
                             phone: Option<string>, email: Option<string>)

  datatype Verb = Post | Patch

  /** A request the dialog issued. */
  datatype Request = Request(verb: Verb, url: string, payload: Payload)

  /**
   * The backend's answer to a request that reached it: whether it is ok,
   * its text and the person it returns.
   */
  datatype Answer = Answer(ok: bool, text: string, person: Person)

  /** `canSubmit`: the name, role and relationship are not blank. */
  predicate CanSubmit(name: string, role: string, relationship: string)
  {
    Trim(name) != [] && Trim(role) != [] && Trim(relationship) != []
  }

  /** The guard rejects exactly the forms with a field that is only whitespace. */
  lemma CanSubmitIffNotBlank(name: string, role: string, relationship: string)
    ensures CanSubmit(name, role, relationship) <==> !IsBlank(name) && !IsBlank(role) && !IsBlank(relationship)
  {
  }

  /** `s.trim() ? s.trim() : null`: an optional field that is blank is sent as null. */
  function Optional(s: string): (r: Option<string>)
    ensures r.None? <==> IsBlank(s)
    ensures r.Some? ==> r.value == Trim(s) && r.value != [] && !IsSpace(r.value[0]) && !IsSpace(r.value[|r.value| - 1])
  {
    var t := Trim(s);
    if t != [] then Some(t) else None
  }

  /** The payload built from the five fields; create and update build the same one. */
  function PayloadOf(name: string, role: string, relationship: string, phone: string, email: string): Payload
  {
    Payload(Trim(name), Trim(role), Trim(relationship), Optional(phone), Optional(email))
  }

  /** The text a form field holds for an optional value: `value ?? ""`. */
  function OrEmpty(v: Option<string>): string
  {
    if v.Some? then v.value else ""
  }

  /** A payload holds no surrounding whitespace and no blank optional field. */
  predicate Normalised(p: Payload)
  {
    && Trim(p.name) == p.name && Trim(p.role) == p.role && Trim(p.relationship) == p.relationship
    && (p.phone.Some? ==> Trim(p.phone.value) == p.phone.value && p.phone.value != [])
    && (p.email.Some? ==> Trim(p.email.value) == p.email.value && p.email.value != [])
  }

  /** Every payload the dialog builds is normalised. */
  lemma PayloadIsNormalised(name: string, role: string, relationship: string, phone: string, email: string)
    ensures Normalised(PayloadOf(name, role, relationship, phone, email))
  {
    TrimIdempotent(name);
    TrimIdempotent(role);
    TrimIdempotent(relationship);
    TrimIdempotent(phone);
    TrimIdempotent(email);
  }

  /**
   * Normalising is idempotent: putting a payload's values back into the
   * fields and submitting again sends the same payload.
   */
  lemma NormaliseIdempotent(p: Payload)
    requires Normalised(p)
    ensures PayloadOf(p.name, p.role, p.relationship, OrEmpty(p.phone), OrEmpty(p.email)) == p
  {
    if p.phone.None? {
      assert IsBlank(OrEmpty(p.phone));
    }
    if p.email.None? {
      assert IsBlank(OrEmpty(p.email));
    }
  }

  function PersonsUrl(clientId: string): string
  {
    "/api/clients/" + clientId + "/persons"
  }

  /**
   * The request for a mode: create POSTs to the client's persons, edit
   * PATCHes the initial person; edit without an initial person has none.
   */
  function RequestFor(mode: Mode, clientId: string, initial: Option<Person>, payload: Payload): (r: Option<Request>)
    ensures r.None? <==> mode == Edit && initial.None?
    ensures r.Some? ==> r.value.payload == payload && StartsWith(r.value.url, PersonsUrl(clientId))
    ensures r.Some? && mode == Create ==> r.value.verb == Post && r.value.url == PersonsUrl(clientId)
    ensures r.Some? && mode == Edit ==>
      r.value.verb == Patch && r.value.url == PersonsUrl(clientId) + "/" + initial.value.id
  {
    match mode
    case Create => Some(Request(Post, PersonsUrl(clientId), payload))
    case Edit =>
      if initial.None? then None
      else
        var url := PersonsUrl(clientId) + "/" + initial.value.id;
        assert url[..|PersonsUrl(clientId)|] == PersonsUrl(clientId);
        Some(Request(Patch, url, payload))
  }

  /**
   * The error a sent request ends with: a thrown `Error`'s message (for a
   * non-ok answer, the answer's text), the fallback for anything else
   * thrown; none when the person was saved.
   */
  function SendError(response: Result<Answer, Option<string>>): (e: Option<string>)
    ensures e.None? <==> response.Success? && response.value.ok
    ensures response.Success? && !response.value.ok ==> e == Some(response.value.text)
    ensures response.Failure? && response.error.Some? ==> e == Some(response.error.value)
    ensures response.Failure? && response.error.None? ==> e == Some(SaveFailed)
  {
    match response
    case Failure(thrown) => Some(if thrown.Some? then thrown.value else SaveFailed)
    case Success(answer) => if answer.ok then None else Some(answer.text)
  }

  /** The five text fields of the form. */
  datatype Form = Form(name: string, role: string, relationship: string, phone: string, email: string)

  /** The form a person prefills. */
  function FormOf(p: Person): Form
  {
    Form(p.name, p.role, p.relationship, OrEmpty(p.phone), OrEmpty(p.email))
  }

  class Dialog {
    const clientId: string
    const mode: Mode
    const initial: Option<Person>
    var open: bool
    var submitting: bool
    var err: Option<string>
    var name: string
    var role: string
    var relationship: string
    var phone: string
    var email: string
    /** Requests issued, in order. */
    var requests: seq<Request>
    /** The persons handed to `onSaved`, in order. */
    var saved: seq<Person>

    /** The five fields, as typed. */
    function Typed(): Form
      reads this
    {
      Form(name, role, relationship, phone, email)
    }

    /** No error and five empty fields. */
    predicate Cleared()
      reads this
    {
      err.None? && name == "" && role == "" && relationship == "" && phone == "" && email == ""
    }

    constructor (clientId: string, mode: Mode, initial: Option<Person>)
      ensures this.clientId == clientId && this.mode == mode && this.initial == initial
      ensures !open && !submitting && Cleared() && requests == [] && saved == []
    {
      this.clientId, this.mode, this.initial := clientId, mode, initial;
      open, submitting, err := false, false, None;
      name, role, relationship, phone, email := "", "", "", "", "";
      requests, saved := [], [];
    }

    /** `reset`: clears the error and the five fields. */
    method Reset()
      modifies this`err, this`name, this`role, this`relationship, this`phone, this`email
      ensures Cleared()
    {
      err := None;
      name, role, relationship, phone, email := "", "", "", "", "";
    }

    /**
     * The prefill effect: while open, edit mode copies the initial person
     * into the fields.
     */
    method Prefill()
      modifies this`name, this`role, this`relationship, this`phone, this`email
      ensures open && mode == Edit && initial.Some? ==> Typed() == FormOf(initial.value)
      ensures !(open && mode == Edit && initial.Some?) ==> Typed() == old(Typed())
    {
      if !open {
        return;
      }
      if mode == Edit && initial.Some? {
        var p := initial.value;
        name, role, relationship := p.name, p.role, p.relationship;
        phone, email := OrEmpty(p.phone), OrEmpty(p.email);
      }
    }

    /**
     * `onOpenChange`, which the dialog itself calls (its trigger, the close
     * icon, a click outside, Escape): closing this way resets the form;
     * opening a closed dialog runs the prefill effect.
     */
    method OnOpenChange(v: bool)
      modifies this`open, this`err, this`name, this`role, this`relationship, this`phone, this`email
      ensures open == v
      ensures !v ==> Cleared()
      ensures v && !old(open) && mode == Edit && initial.Some? ==>
        err == old(err) && Typed() == FormOf(initial.value)
      ensures v && (old(open) || mode == Create || initial.None?) ==>
        err == old(err) && Typed() == old(Typed())
    {
      var was := open;
      open := v;
      if !v {
        Reset();
      } else if !was {
        Prefill();
      }
    }

    /**
     * The Cancelar button: `setOpen(false)` alone. Changing the controlled
     * `open` prop does not call `onOpenChange`, so nothing is reset: the
     * error and the five fields are still there when the dialog reopens.
     */
    method Cancel()
      modifies this`open
      ensures !open
      ensures err == old(err) && Typed() == old(Typed())
    {
      open := false;
    }

    /** The payload the fields give. */
    function Body(): Payload
      reads this
    {
      PayloadOf(name, role, relationship, phone, email)
    }

    /**
     * `submit`. `response` is the outcome of the request when one is sent:
     * the backend's answer, or the failure that was thrown, carrying its
     * message when it is an `Error`.
     */
    method Submit(response: Result<Answer, Option<string>>)
      modifies this`open, this`submitting, this`err, this`name, this`role, this`relationship,
               this`phone, this`email, this`requests, this`saved
      ensures !old(CanSubmit(name, role, relationship)) ==>
        && err == Some(MissingFields) && submitting == old(submitting)
        && requests == old(requests) && saved == old(saved) && open == old(open) && Typed() == old(Typed())
      ensures old(CanSubmit(name, role, relationship)) ==> !submitting
      ensures old(CanSubmit(name, role, relationship)) && mode == Edit && initial.None? ==>
        && err == Some(MissingInitial)
        && requests == old(requests) && saved == old(saved) && open == old(open) && Typed() == old(Typed())
      ensures old(CanSubmit(name, role, relationship)) && (mode == Create || initial.Some?) ==>
        && requests == old(requests) + [RequestFor(mode, clientId, initial, old(Body())).value]
        && err == SendError(response)
      ensures old(CanSubmit(name, role, relationship)) && (mode == Create || initial.Some?) && SendError(response).None? ==>
        saved == old(saved) + [response.value.person] && !open && Cleared()
      ensures old(CanSubmit(name, role, relationship)) && (mode == Create || initial.Some?) && SendError(response).Some? ==>
        saved == old(saved) && open == old(open) && Typed() == old(Typed())
    {
      err := None;
      if !CanSubmit(name, role, relationship) {
        err := Some(MissingFields);
        return;
      }
      submitting := true;
      var request := RequestFor(mode, clientId, initial, Body());
      if request.None? {
        err := Some(MissingInitial);
        submitting := false;
      } else {
        Send(request.value, response);
      }
    }

    /** The request is issued; the answer decides between saving and an error. */
    method Send(request: Request, response: Result<Answer, Option<string>>)
      modifies this`open, this`submitting, this`err, this`name, this`role, this`relationship,
               this`phone, this`email, this`requests, this`saved
      ensures requests == old(requests) + [request] && !submitting && err == SendError(response)
      ensures SendError(response).None? ==> saved == old(saved) + [response.value.person] && !open && Cleared()
      ensures SendError(response).Some? ==> saved == old(saved) && open == old(open) && Typed() == old(Typed())
    {
      requests := requests + [request];
      var error := SendError(response);
      if error.Some? {
        err := error;
      } else {
        saved := saved + [response.value.person];
        open := false;
        Reset();
      }
      submitting := false;
    }
  }
}

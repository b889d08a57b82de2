/**
 * The order form (`Uploader`): the draft order it holds, the submit guard,
 * the request it sends and what each reply does to the draft.
 *
 * The asynchronous `submit` is split at its `await`: `BeginSubmit` runs the
 * guard, raises `saving` and yields the request; `CompleteSubmit` takes the
 * order service's reply and runs the `try`/`catch`/`finally` tail. A file
 * read is split the same way: `HandleFile` starts it, `FileLoaded` delivers
 * its data URI. Each event is atomic.
 */
module OrderForm {
  import opened Wrappers
  import opened JsString
  import opened JsValue

  /** The six pieces of state one order form holds. */
  datatype Draft = Draft(
    image: Option<string>,  // the photo as a data URI, `None` for null
    desc: string,
    name: string,
    contact: string,
    saving: bool,
    savedId: Value          // the last id the service returned, `Null` before any
  )

  /** The state a newly shown order form starts in. */
  const Initial := Draft(None, "", "", "", false, Null)

  /** The JSON body of the create-order request; a `None` member is left out of the JSON. */
  datatype Request = Request(
    size: string,
    description: string,
    imageBase64: string,
    customerName: Option<string>,
    contact: Option<string>
  )

  /** What the awaited request produced. */
  datatype Outcome =
    | Ok(id: Value)         // `res.ok`; `data.id` (`Undefined` when the reply has none)
    | NotOk(detail: Value)  // `!res.ok`; `data.detail` (`Undefined` when the reply has none)
    | Thrown(message: string)  // `fetch` or `res.json()` threw, or reading `data` failed

  /** Result of the first half of `submit`: the new draft and the request, if one is sent. */
  datatype Began = Began(draft: Draft, request: Option<Request>)

  /** Result of the second half of `submit`: the new draft and the alerted message, if any. */
  datatype Completed = Completed(draft: Draft, alert: Option<string>)

  const FallbackMessage := "Failed to save"

  /** `image` is truthy: present and not the empty string. */
  predicate HasImage(image: Option<string>) {
    image.Some? && image.value != ""
  }

  /** The submit guard passes: it returns early on `!image || !desc.trim()`. It does not look at `saving`. */
  predicate CanSubmit(d: Draft) {
    HasImage(d.image) && !IsBlank(d.desc)
  }

  /** The "Place order" button's `disabled` expression. */
  predicate ButtonDisabled(d: Draft) {
    d.saving || !HasImage(d.image) || IsBlank(d.desc)
  }

  /** `field || undefined` for a text field: the empty string becomes absent. */
  function OmitIfEmpty(field: string): Option<string> {
    if field == "" then None else Some(field)
  }

  /** The request body `submit` sends for draft `d` of size `sizeKey`. */
  function BuildRequest(sizeKey: string, d: Draft): Request
    requires HasImage(d.image)
  {
    Request(sizeKey, d.desc, d.image.value, OmitIfEmpty(d.name), OmitIfEmpty(d.contact))
  }

  /** `data.detail || 'Failed to save'`, as the message of the `Error` it is thrown in. */
  function FailureMessage(detail: Value): string {
    if Truthy(detail) then ToText(detail) else FallbackMessage
  }

  /** The synchronous half of `submit`: the guard, then `setSaving(true)` and the request. */
  function Begin(d: Draft, sizeKey: string): Began {
    if !CanSubmit(d) then Began(d, None)
    else Began(d.(saving := true), Some(BuildRequest(sizeKey, d)))
  }

  /** The half of `submit` after the reply: record the id or alert a message, then clear `saving`. */
  function Complete(d: Draft, outcome: Outcome): Completed {
    match outcome
    case Ok(id) => Completed(d.(savedId := id, saving := false), None)
    case NotOk(detail) => Completed(d.(saving := false), Some(FailureMessage(detail)))
    case Thrown(message) => Completed(d.(saving := false), Some(message))
  }

  /** A file the customer picked; its contents reach the form only as the data URI of `FileLoaded`. */
  datatype FileRef = FileRef(name: string)

  /** One mounted order form for one size. */
  class Uploader {
    const sizeKey: string
    var image: Option<string>
    var desc: string
    var name: string
    var contact: string
    var saving: bool
    var savedId: Value

    function State(): Draft
      reads this
    {
      Draft(image, desc, name, contact, saving, savedId)
    }

    constructor (sizeKey: string)
      ensures this.sizeKey == sizeKey && State() == Initial
    {
      this.sizeKey := sizeKey;
      image := None;
      desc, name, contact := "", "", "";
      saving := false;
      savedId := Null;
    }

    /** `handleFile`: with no file nothing happens; with one, a read starts and the state is untouched. */
    method HandleFile(file: Option<FileRef>) returns (readStarted: bool)
      ensures readStarted <==> file.Some?
    {
      if file.None? {
        return false;
      }
      readStarted := true;
    }

    /** The read's `onload`: its data URI replaces whatever image was held. */
    method FileLoaded(dataUri: string)
      modifies this
      ensures State() == old(State()).(image := Some(dataUri))
    {
      image := Some(dataUri);
    }

    method SetDesc(value: string)
      modifies this
      ensures State() == old(State()).(desc := value)
    {
      desc := value;
    }

    method SetName(value: string)
      modifies this
      ensures State() == old(State()).(name := value)
    {
      name := value;
    }

    method SetContact(value: string)
      modifies this
      ensures State() == old(State()).(contact := value)
    {
      contact := value;
    }

    /** `submit` up to the `await fetch(...)`: the request it sends, or `None` when the guard returns. */
    method BeginSubmit() returns (request: Option<Request>)
      modifies this
      ensures Began(State(), request) == Begin(old(State()), sizeKey)
    {
      if !HasImage(image) || IsBlank(desc) {
        return None;
      }
      saving := true;
      request := Some(BuildRequest(sizeKey, State()));
    }

    /** `submit` after the reply: the message `alert` shows, if any. */
    method CompleteSubmit(outcome: Outcome) returns (alert: Option<string>)
      modifies this
      ensures Completed(State(), alert) == Complete(old(State()), outcome)
    {
      alert := None;
      match outcome {
        case Ok(id) =>
          savedId := id;
        case NotOk(detail) =>
          alert := Some(FailureMessage(detail));
        case Thrown(message) =>
          alert := Some(message);
      }
      saving := false;
    }
  }

  // ---------------------------------------------------------------------------
  // Properties of the draft's transitions

  /** When the guard fails, `submit` sends nothing and changes nothing. */
  lemma GuardFailureIsNoOp(d: Draft, sizeKey: string)
    requires d.image.None? || d.image == Some("") || AllWhitespace(d.desc)
    ensures Begin(d, sizeKey) == Began(d, None)
  {
    BlankIffAllWhitespace(d.desc);
  }

  /** When the guard passes, `saving` is raised before the request goes out, and nothing else changes. */
  lemma GuardSuccessRaisesSaving(d: Draft, sizeKey: string)
    requires HasImage(d.image) && !AllWhitespace(d.desc)
    ensures Begin(d, sizeKey).request.Some?
    ensures Begin(d, sizeKey).draft == d.(saving := true)
  {
    BlankIffAllWhitespace(d.desc);
  }

  /** A request is sent exactly when the guard passes; whatever `saving` was does not matter. */
  lemma RequestSentIffGuard(d: Draft, sizeKey: string, saving: bool)
    ensures Begin(d, sizeKey).request.Some? <==> CanSubmit(d)
    ensures Begin(d.(saving := saving), sizeKey).request == Begin(d, sizeKey).request
  {
  }

  /** The guard itself lets a second submit through while the first is still saving. */
  lemma GuardIgnoresSaving(sizeKey: string)
    ensures Begin(Draft(Some("data:,"), "cake", "", "", true, Null), sizeKey).request.Some?
  {
    NotBlankAt("cake", 0);
  }

  /** The request carries the size, the untrimmed description and the image as they are. */
  lemma RequestCarriesDraft(d: Draft, sizeKey: string)
    requires CanSubmit(d)
    ensures Begin(d, sizeKey).request.Some?
    ensures var r := Begin(d, sizeKey).request.value;
      r.size == sizeKey && r.description == d.desc && Some(r.imageBase64) == d.image
  {
  }

  /** The optional members are absent exactly for empty fields and otherwise sent verbatim. */
  lemma OptionalFieldsOmittedIffEmpty(d: Draft, sizeKey: string)
    requires CanSubmit(d)
    ensures var r := Begin(d, sizeKey).request.value;
      (r.customerName.None? <==> d.name == "") && (r.customerName.Some? ==> r.customerName.value == d.name) &&
      (r.contact.None? <==> d.contact == "") && (r.contact.Some? ==> r.contact.value == d.contact)
  {
  }

  /** A whitespace-only name is not blank to `||`, so it is sent. */
  lemma WhitespaceNameIsSent(d: Draft, sizeKey: string)
    requires CanSubmit(d) && d.name == " "
    ensures Begin(d, sizeKey).request.value.customerName == Some(" ")
  {
  }

  /**
   * Every reply, and every failure to get one, leaves `saving` false, whatever
   * edits or file loads happened while the request was in flight.
   */
  lemma SavingClearedOnEveryOutcome(d: Draft, outcome: Outcome)
    ensures !Complete(d, outcome).draft.saving
  {
  }

  /** A success records the returned id and leaves the form filled in. */
  lemma SuccessKeepsForm(d: Draft, id: Value)
    ensures var after := Complete(d, Ok(id));
      after.alert.None? && after.draft.savedId == id &&
      after.draft.image == d.image && after.draft.desc == d.desc &&
      after.draft.name == d.name && after.draft.contact == d.contact
  {
  }

  /** After a successful submit the button is enabled again, and a second success overwrites the id. */
  lemma ResubmitAfterSuccess(d: Draft, sizeKey: string, first: Value, second: Value)
    requires CanSubmit(d)
    ensures var once := Complete(Begin(d, sizeKey).draft, Ok(first)).draft;
      !ButtonDisabled(once) && once.savedId == first &&
      Begin(once, sizeKey).request == Begin(d, sizeKey).request &&
      Complete(Begin(once, sizeKey).draft, Ok(second)).draft.savedId == second
  {
  }

  /** A rejected request alerts `detail` or the fallback and keeps the id of any earlier success. */
  lemma FailureKeepsSavedId(d: Draft, detail: Value)
    ensures var after := Complete(d, NotOk(detail));
      after.draft == d.(saving := false) &&
      after.alert == Some(if Truthy(detail) then ToText(detail) else "Failed to save")
  {
  }

  /** A thrown error alerts its own message and keeps the id of any earlier success. */
  lemma ThrownKeepsSavedId(d: Draft, message: string)
    ensures Complete(d, Thrown(message)) == Completed(d.(saving := false), Some(message))
  {
  }

  /** A non-empty string `detail` is shown as it is; a missing, null or empty one gives the fallback. */
  lemma FailureMessageCases(s: string)
    ensures s != "" ==> FailureMessage(Str(s)) == s
    ensures FailureMessage(Str("")) == "Failed to save"
    ensures FailureMessage(Undefined) == "Failed to save" && FailureMessage(Null) == "Failed to save"
  {
  }

  /** A validation-error list of two objects is alerted as "[object Object],[object Object]". */
  lemma ObjectListDetailMessage(a: seq<(string, Value)>, b: seq<(string, Value)>)
    ensures FailureMessage(Array([Object(a), Object(b)])) == "[object Object],[object Object]"
  {
    ObjectListText(a, b);
  }

  /** The button is enabled exactly when nothing is saving and the guard would pass. */
  lemma EnabledIffIdleAndGuard(d: Draft)
    ensures !ButtonDisabled(d) <==> !d.saving && CanSubmit(d)
  {
  }

  /** Two reads that complete one after the other leave only the latest data URI held, with no trace of the first. */
  method LatestImageWins(u: Uploader, first: string, second: string)
    modifies u
    ensures u.State() == old(u.State()).(image := Some(second))
  {
    u.FileLoaded(first);
    u.FileLoaded(second);
  }

  /** A blank description blocks both the button and the guard, whitespace of any kind included. */
  lemma WhitespaceDescriptionBlocks(d: Draft)
    requires d.desc == " \t\n\U{3000}"
    ensures !CanSubmit(d) && ButtonDisabled(d)
  {
    BlankIffAllWhitespace(d.desc);
  }

  /**
   * A multi-layer order with a photo and a description that the service
   * accepts with id "7" leaves "7" as the (truthy, hence shown) saved id.
   */
  lemma MultiLayerScenario(uri: string)
    requires uri != ""
    ensures var d := Initial.(image := Some(uri)).(desc := "chocolate, 3 tiers");
      var began := Begin(d, "multi_layer");
      began.request == Some(Request("multi_layer", "chocolate, 3 tiers", uri, None, None)) &&
      Complete(began.draft, Ok(Str("7"))).draft.savedId == Str("7") &&
      Truthy(Str("7"))
  {
    NotBlankAt("chocolate, 3 tiers", 0);
  }
}

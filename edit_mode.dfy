/**
 * The edit-or-create state machine the debt, expense and income pages share:
 * a page-level `editingId` that opening the modal on a record sets, opening it
 * empty or closing it clears, and that decides whether delete does anything
 * and whether submit sends PUT or POST.
 */
module EditMode {
  import opened Wrappers
  import opened Records

  datatype Page = DebtsPage | ExpensesPage | IncomePage

  datatype Verb = Post | Put | Delete

  datatype Body = NoBody | DebtBody(debt: DebtPayload) | TransactionBody(txn: TransactionPayload)

  datatype Request = Request(verb: Verb, path: string, body: Body)

  /** How a fetch ended: a 2xx response, another response, or a thrown error. */
  datatype Response = Ok | NotOk | Thrown

  function CollectionPath(page: Page): string
  {
    if page == DebtsPage then "/api/debts" else "/api/transactions"
  }

  function CreatedText(page: Page): string
  {
    match page
    case DebtsPage => "Borç Kaydedildi!"
    case ExpensesPage => "Başarıyla eklendi!"
    case IncomePage => "Gelir Eklendi!"
  }

  function UpdatedText(page: Page): string
  {
    "Güncellendi!"
  }

  /** The toast for a submit whose response is not ok: only the debt page
      shows one. */
  function NotOkText(page: Page): Option<string>
  {
    if page == DebtsPage then Some("Hata oluştu") else None
  }

  /** The toast for a submit whose fetch threw. */
  function ThrownText(page: Page): string
  {
    match page
    case DebtsPage => "Sunucu hatası"
    case ExpensesPage => "Bir hata oluştu."
    case IncomePage => "Hata oluştu."
  }

  /** `${base}/${editingId}`. */
  function MemberPath(page: Page, id: ItemId): string
  {
    CollectionPath(page) + "/" + ItemIdString(id)
  }

  class EditSession {
    const page: Page
    var editingId: Option<ItemId>

    /** A freshly loaded page: `let editingId = null`. */
    constructor (page: Page)
      ensures this.page == page && editingId == None
    {
      this.page := page;
      editingId := None;
    }

    /** openModal(itemStr) on a listed record holds its id; openModal()
        (the add button) holds none. */
    method OpenModal(record: Option<ItemId>)
      modifies this
      ensures editingId == record
    {
      if record.Some? {
        editingId := Some(record.value);
      } else {
        editingId := None;
      }
    }

    method CloseModal()
      modifies this
      ensures editingId == None
    {
      editingId := None;
    }

    /** handleDelete: nothing without a (truthy) held id or without the
        user's confirmation; otherwise a DELETE of the held record, and on
        success the modal closes. */
    method HandleDelete(confirmed: bool, response: Response) returns (request: Option<Request>, toast: Option<string>)
      modifies this
      ensures request.Some? <==> IsTruthy(old(editingId)) && confirmed
      ensures request.Some? ==>
        request.value == Request(Delete, MemberPath(page, old(editingId).value), NoBody)
      ensures editingId == if request.Some? && response == Ok then None else old(editingId)
      ensures toast == if request.None? then None
                       else match response
                            case Ok => Some("Silindi")
                            case NotOk => None
                            case Thrown => Some("Hata")
    {
      request, toast := None, None;
      if !IsTruthy(editingId) {
        return;
      }
      if confirmed {
        request := Some(Request(Delete, MemberPath(page, editingId.value), NoBody));
        match response {
          case Ok =>
            CloseModal();
            toast := Some("Silindi");
          case NotOk =>
          case Thrown =>
            toast := Some("Hata");
        }
      }
    }

    /** handleFormSubmit: PUT to the held record when an id is held, POST to
        the collection otherwise. On success the modal is closed BEFORE the
        toast's `editingId ? updated : created` is evaluated, so the toast is
        always the "created" text. */
    method HandleSubmit(body: Body, response: Response) returns (request: Request, toast: Option<string>)
      modifies this
      ensures request.verb == (if IsTruthy(old(editingId)) then Put else Post)
      ensures request.path == if IsTruthy(old(editingId))
                              then MemberPath(page, old(editingId).value)
                              else CollectionPath(page)
      ensures request.body == body
      ensures response == Ok ==> editingId == None && toast == Some(CreatedText(page))
      ensures response == NotOk ==> editingId == old(editingId) && toast == NotOkText(page)
      ensures response == Thrown ==> editingId == old(editingId) && toast == Some(ThrownText(page))
    {
      if IsTruthy(editingId) {
        request := Request(Put, MemberPath(page, editingId.value), body);
      } else {
        request := Request(Post, CollectionPath(page), body);
      }
      match response {
        case Ok =>
          CloseModal();
          toast := Some(if IsTruthy(editingId) then UpdatedText(page) else CreatedText(page));
        case NotOk =>
          toast := NotOkText(page);
        case Thrown =>
          toast := Some(ThrownText(page));
      }
    }
  }

  /** A client of the session: editing a listed record and submitting it
      sends a PUT to that record, yet announces a creation. */
  method EditThenSubmit(page: Page, id: int, body: Body) returns (request: Request, toast: Option<string>)
    requires id != 0
    ensures request == Request(Put, MemberPath(page, RowId(id)), body)
    ensures toast == Some(CreatedText(page)) && toast != Some(UpdatedText(page))
  {
    var session := new EditSession(page);
    session.OpenModal(Some(RowId(id)));
    request, toast := session.HandleSubmit(body, Ok);
  }
}

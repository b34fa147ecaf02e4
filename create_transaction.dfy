/**
 * The create-transaction request handler (POST): an ordered chain of
 * guards over the request body -- title, amount, category id, type --
 * where the first guard that fails decides the 400 response, then the
 * normalisation of the accepted body into the record handed to storage.
 * The storage write is a parameter that either returns the stored row or
 * fails with a message.
 */
module CreateTransaction {
  import opened Wrappers
  import opened Text
  import opened TxKind

  /** A value of a field of the parsed JSON body; Undefined is a missing key. */
  datatype JsValue = Undefined | Null | Bool(b: bool) | Num(n: real) | Str(s: string)

  /** The result of JavaScript's `Number(...)` coercion. */
  datatype JsNumber = NaN | Finite(value: real) | Infinite(negative: bool)

  /** The request body, destructured as the handler does. */
  datatype Payload = Payload(
    title: JsValue,
    amount: JsValue,
    date: JsValue,
    note: JsValue,
    categoryId: JsValue,
    txType: JsValue)

  /** JavaScript truthiness. */
  predicate Truthy(v: JsValue) {
    match v
    case Undefined => false
    case Null => false
    case Bool(b) => b
    case Num(n) => n != 0.0
    case Str(s) => s != ""
  }

  /**
   * `Number(v)`. A string that is empty or only white space is 0; any other
   * string goes through `parse`, the engine's StringToNumber, which is a
   * parameter of the model.
   */
  function ToNumber(v: JsValue, parse: string -> JsNumber): (r: JsNumber)
    ensures v.Undefined? ==> r == NaN
    ensures v.Null? || v == Bool(false) ==> r == Finite(0.0)
    ensures v.Str? && AllWhiteSpace(v.s) ==> r == Finite(0.0)
  {
    match v
    case Undefined => NaN
    case Null => Finite(0.0)
    case Bool(b) => Finite(if b then 1.0 else 0.0)
    case Num(n) => Finite(n)
    case Str(s) =>
      TrimEmptyIff(s);
      if Trim(s) == "" then Finite(0.0) else parse(s)
  }

  /** The four validation failures, each answered with status 400. */
  datatype Rejection = TitleRequired | AmountInvalid | CategoryRequired | TypeRequired {
    function Message(): string {
      match this
      case TitleRequired => "Titlul este obligatoriu."
      case AmountInvalid => "Suma trebuie să fie un număr valid."
      case CategoryRequired => "Categoria este obligatorie."
      case TypeRequired => "Tipul (INCOME/EXPENSE) este obligatoriu."
    }
  }

  /** Why no record was handed to storage. */
  datatype Failure =
    | Rejected(reason: Rejection)
      /** `title?.trim()` on a number or boolean throws a TypeError. */
    | ThrewTypeError

  /** The record's date: the given value turned into a Date, or the current instant. */
  datatype DateField = FromBody(raw: JsValue) | Now(instant: int)

  /** What the handler passes to the storage `create` call. */
  datatype NewRecord = NewRecord(
    title: string,
    amount: JsNumber,
    note: JsValue,
    date: DateField,
    txType: TxType,
    categoryId: JsNumber)

  /** The four strings the type guard lets through. */
  predicate AllowedType(v: JsValue) {
    v.Str? && v.s in {"INCOME", "EXPENSE", "income", "expense"}
  }

  /** `type.toUpperCase() === "INCOME" ? "INCOME" : "EXPENSE"`. */
  function StoredType(s: string): TxType {
    if Upper(s) == "INCOME" then INCOME else EXPENSE
  }

  /** Each accepted spelling is stored as its upper-case form. */
  lemma {:induction false} StoredTypeIsUpper(s: string)
    requires s in {"INCOME", "EXPENSE", "income", "expense"}
    ensures StoredType(s).Name() == Upper(s)
    ensures StoredType(s) == INCOME <==> s == "INCOME" || s == "income"
  {
    if s == "income" {
      assert Upper(s) == "INCOME";
    } else if s == "expense" {
      assert Upper(s) == "EXPENSE";
    } else if s == "EXPENSE" {
      assert Upper(s) == s;
    } else {
      assert Upper(s) == s;
    }
  }

  /** `!title?.trim()` holds: the title is missing or blank. */
  predicate TitleMissing(v: JsValue) {
    v.Undefined? || v.Null? || (v.Str? && Trim(v.s) == "")
  }

  /**
   * The guard chain and the normalisation: validates `p` in the source's
   * order and, when every guard passes, builds the record to store.
   */
  function Validate(p: Payload, parse: string -> JsNumber, now: int): (r: Result<NewRecord, Failure>)
    ensures r.Success? ==> p.title.Str? && r.value.title == p.title.s
    ensures r.Success? ==> r.value.amount != NaN && AllowedType(p.txType)
  {
    if p.title.Bool? || p.title.Num? then Failure(ThrewTypeError)
    else if TitleMissing(p.title) then Failure(Rejected(TitleRequired))
    else if ToNumber(p.amount, parse) == NaN then Failure(Rejected(AmountInvalid))
    else if !Truthy(p.categoryId) then Failure(Rejected(CategoryRequired))
    else if !Truthy(p.txType) || !AllowedType(p.txType) then Failure(Rejected(TypeRequired))
    else
      Success(NewRecord(
        title := p.title.s,
        amount := ToNumber(p.amount, parse),
        note := if p.note.Undefined? || p.note.Null? then Null else p.note,
        date := if Truthy(p.date) then FromBody(p.date) else Now(now),
        txType := StoredType(p.txType.s),
        categoryId := ToNumber(p.categoryId, parse)))
  }

  /** The handler's responses. */
  datatype Response<R> =
    | Stored(row: R)
    | BadRequest(error: string)
    | ServerError(error: string, details: string)
  {
    function Status(): int {
      match this
      case Stored(_) => 200
      case BadRequest(_) => 400
      case ServerError(_, _) => 500
    }
  }

  const CreateFailed := "Eroare la adăugarea tranzacției"
  /** The message of the TypeError raised by `title?.trim()` on a non-string (engine wording). */
  const TrimNotAFunction := "title?.trim is not a function"

  /**
   * POST: validate, then call `create` exactly when validation passed.
   * An exception -- the TypeError from the title or a failed write -- is
   * answered with 500, `error` and `details`.
   */
  function Post<R>(p: Payload, parse: string -> JsNumber, now: int,
                   create: NewRecord -> Result<R, string>): (r: Response<R>)
    ensures r.BadRequest? <==> Validate(p, parse, now).Failure? && Validate(p, parse, now).error.Rejected?
    ensures r.Stored? ==> Validate(p, parse, now).Success?
                          && create(Validate(p, parse, now).value) == Success(r.row)
    ensures Validate(p, parse, now).Success? && create(Validate(p, parse, now).value).Success? ==>
              r == Stored(create(Validate(p, parse, now).value).value) && r.Status() == 200
    ensures Validate(p, parse, now) == Failure(ThrewTypeError) ==>
              r == ServerError(CreateFailed, TrimNotAFunction) && r.Status() == 500
  {
    match Validate(p, parse, now)
    case Failure(Rejected(reason)) => BadRequest(reason.Message())
    case Failure(ThrewTypeError) => ServerError(CreateFailed, TrimNotAFunction)
    case Success(record) =>
      match create(record)
      case Success(row) => Stored(row)
      case Failure(message) => ServerError(CreateFailed, message)
  }

  /** A body is accepted exactly when all four guards pass. */
  lemma ValidateAcceptsIff(p: Payload, parse: string -> JsNumber, now: int)
    ensures Validate(p, parse, now).Success? <==>
      && p.title.Str? && !AllWhiteSpace(p.title.s)
      && ToNumber(p.amount, parse) != NaN
      && Truthy(p.categoryId)
      && AllowedType(p.txType)
  {
    if p.title.Str? {
      TrimEmptyIff(p.title.s);
    }
  }

  /** A missing or blank title is rejected first, whatever the other fields hold. */
  lemma TitleCheckedFirst<R>(p: Payload, parse: string -> JsNumber, now: int,
                            create: NewRecord -> Result<R, string>)
    requires p.title.Undefined? || p.title.Null? || (p.title.Str? && AllWhiteSpace(p.title.s))
    ensures Validate(p, parse, now) == Failure(Rejected(TitleRequired))
    ensures Post(p, parse, now, create) == BadRequest("Titlul este obligatoriu.")
  {
    if p.title.Str? {
      TrimEmptyIff(p.title.s);
    }
  }

  /**
   * The first failing guard decides the error: each guard is reached only
   * when all earlier ones passed.
   */
  lemma FirstFailureDecides(p: Payload, parse: string -> JsNumber, now: int)
    requires p.title.Str? && !AllWhiteSpace(p.title.s)
    ensures ToNumber(p.amount, parse) == NaN ==> Validate(p, parse, now) == Failure(Rejected(AmountInvalid))
    ensures ToNumber(p.amount, parse) != NaN && !Truthy(p.categoryId) ==>
              Validate(p, parse, now) == Failure(Rejected(CategoryRequired))
    ensures ToNumber(p.amount, parse) != NaN && Truthy(p.categoryId) && !AllowedType(p.txType) ==>
              Validate(p, parse, now) == Failure(Rejected(TypeRequired))
  {
    TrimEmptyIff(p.title.s);
    assert !TitleMissing(p.title);
  }

  /** Only NaN is rejected: a negative amount, and an empty amount string, pass the amount guard. */
  lemma AmountOnlyRejectsNaN(parse: string -> JsNumber, x: real)
    ensures ToNumber(Num(x), parse) != NaN
    ensures ToNumber(Str(""), parse) == Finite(0.0)
    ensures ToNumber(Undefined, parse) == NaN
  {
    TrimEmptyIff("");
  }

  /** A string that starts with a visible character is not blank. */
  lemma NotBlank(s: string)
    requires |s| > 0 && !IsWhiteSpace(s[0])
    ensures !AllWhiteSpace(s) && Trim(s) != ""
  {
    TrimEmptyIff(s);
  }

  /** A string that starts with a visible character is converted by the engine's parser. */
  lemma NumberOfNonBlank(s: string, parse: string -> JsNumber)
    requires |s| > 0 && !IsWhiteSpace(s[0])
    ensures ToNumber(Str(s), parse) == parse(s)
  {
    NotBlank(s);
  }

  /** Mixed-case types, a missing type and the category id 0 or "" are rejected. */
  lemma RejectedExamples(p: Payload, parse: string -> JsNumber, now: int)
    requires p.title.Str? && |p.title.s| > 0 && !IsWhiteSpace(p.title.s[0]) && p.amount.Num?
    ensures p.txType == Str("Income") && Truthy(p.categoryId) ==>
              Validate(p, parse, now) == Failure(Rejected(TypeRequired))
    ensures p.txType == Undefined && Truthy(p.categoryId) ==>
              Validate(p, parse, now) == Failure(Rejected(TypeRequired))
    ensures p.categoryId in {Num(0.0), Str(""), Undefined, Null} ==>
              Validate(p, parse, now) == Failure(Rejected(CategoryRequired))
  {
    NotBlank(p.title.s);
    assert !TitleMissing(p.title);
    assert ToNumber(p.amount, parse) == Finite(p.amount.n);
    assert !AllowedType(Str("Income")) by {
      assert "Income" != "INCOME" && "Income" != "income";
    }
  }

  /**
   * On success the record is the normalised body: the title as given,
   * `Number(amount)`, `note ?? null`, the given date when truthy and `now`
   * otherwise, the upper-case type and `Number(categoryId)`.
   */
  lemma AcceptedRecord(p: Payload, parse: string -> JsNumber, now: int)
    requires Validate(p, parse, now).Success?
    ensures var rec := Validate(p, parse, now).value;
      && rec.amount == ToNumber(p.amount, parse)
      && (rec.note == Null <==> p.note.Undefined? || p.note.Null?)
      && (rec.note != Null ==> rec.note == p.note)
      && (rec.date == Now(now) <==> !Truthy(p.date))
      && (Truthy(p.date) ==> rec.date == FromBody(p.date))
      && rec.categoryId == ToNumber(p.categoryId, parse)
      && rec.txType.Name() == Upper(p.txType.s)
      && (rec.txType == INCOME <==> p.txType.s == "INCOME" || p.txType.s == "income")
  {
    assert Validate(p, parse, now).value == NewRecord(
      p.title.s, ToNumber(p.amount, parse),
      if p.note.Undefined? || p.note.Null? then Null else p.note,
      if Truthy(p.date) then FromBody(p.date) else Now(now),
      StoredType(p.txType.s), ToNumber(p.categoryId, parse));
    StoredTypeIsUpper(p.txType.s);
  }

  /**
   * A rejected body never reaches storage: the response is the same
   * whatever `create` would do.
   */
  lemma NoWriteOnFailure<R>(p: Payload, parse: string -> JsNumber, now: int,
                            c1: NewRecord -> Result<R, string>, c2: NewRecord -> Result<R, string>)
    requires Validate(p, parse, now).Failure?
    ensures Post(p, parse, now, c1) == Post(p, parse, now, c2)
    ensures Post(p, parse, now, c1).Status() != 200
  {
  }

  /** A failed write is a 500 carrying the storage message, never a 400. */
  lemma StorageFailureIs500<R>(p: Payload, parse: string -> JsNumber, now: int,
                              create: NewRecord -> Result<R, string>)
    requires Validate(p, parse, now).Success?
    requires create(Validate(p, parse, now).value).Failure?
    ensures Post(p, parse, now, create)
            == ServerError(CreateFailed, create(Validate(p, parse, now).value).error)
    ensures Post(p, parse, now, create).Status() == 500
  {
  }

  /**
   * A body whose fields are all strings, as a form posts them: its amount and category id go
   * through the engine's parser, the missing note becomes null and the
   * missing date becomes now.
   */
  lemma ExpenseFromStrings(p: Payload, parse: string -> JsNumber, now: int, amount: real, category: real)
    requires p.title.Str? && |p.title.s| > 0 && !IsWhiteSpace(p.title.s[0])
    requires p.amount.Str? && |p.amount.s| > 0 && !IsWhiteSpace(p.amount.s[0]) && parse(p.amount.s) == Finite(amount)
    requires p.categoryId.Str? && |p.categoryId.s| > 0 && !IsWhiteSpace(p.categoryId.s[0])
    requires parse(p.categoryId.s) == Finite(category)
    requires p.note.Undefined? && p.date.Undefined? && p.txType == Str("expense")
    ensures Validate(p, parse, now) == Success(NewRecord(p.title.s, Finite(amount), Null, Now(now), EXPENSE, Finite(category)))
  {
    NotBlank(p.title.s);
    NumberOfNonBlank(p.amount.s, parse);
    NumberOfNonBlank(p.categoryId.s, parse);
    ValidateAcceptsIff(p, parse, now);
    AcceptedRecord(p, parse, now);
  }
}

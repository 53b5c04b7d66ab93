/**
 * What the three command handlers (orders, expenses, transfers) do alike:
 * the id check before a lookup, the ordered check for missing fields, the
 * list rendering capped at twenty rows, and the catch that turns an error
 * into the "Oops" reply. Each handler file repeats these in the source;
 * here each is defined once and used by all three.
 */
module HandlerCommon {
  import opened Js
  import Api = OrderSystemApi

  /**
   * Date rendering, which depends on the locale and time zone: the text of
   * `new Date(x).toLocaleString()` and of `${getMonth() + 1}/${getDate()}`.
   */
  datatype DateFormat = DateFormat(localeString: Value -> string, monthDay: Value -> string)

  /** What a handler step returns (or throws), and the record-system call it made, if any. */
  datatype Handled = Handled(result: Outcome<string>, call: Option<Api.Request>)

  const OopsPrefix := "❌ Oops! Something went wrong: "

  /** The dispatcher's `catch`: an error becomes the "Oops" reply with its message. */
  function Caught(result: Outcome<string>): (r: string)
    ensures result.Returned? ==> r == result.value
    ensures result.Threw? ==> r == OopsPrefix + result.message
  {
    match result
    case Returned(text) => text
    case Threw(message) => OopsPrefix + message
  }

  // ---------------------------------------------------------------------
  // Ids
  // ---------------------------------------------------------------------

  datatype IdCheck = NoId | BadId | GoodId(id: Value)

  /**
   * The id check of every get/complete step: a falsy id is missing; a string
   * is read with `parseInt(id, 10)` and is invalid when that gives NaN; any
   * other truthy value is used as it is.
   */
  function CheckId(raw: Value): (r: IdCheck)
    ensures r.NoId? <==> !Truthy(raw)
    ensures r.BadId? <==> Truthy(raw) && raw.Str? && ParseInt(raw.s).None?
    ensures r.GoodId? && raw.Str? ==> r.id == Num(ParseInt(raw.s).value as real)
    ensures r.GoodId? && !raw.Str? ==> r.id == raw
  {
    if !Truthy(raw) then NoId
    else if raw.Str? then
      match ParseInt(raw.s)
      case None => BadId
      case Some(n) => GoodId(Num(n as real))
    else GoodId(raw)
  }

  /** A non-zero id written as a number or as its decimal text reaches the record system as the same number. */
  lemma CheckIdOfNumberOrText(n: int)
    requires n != 0
    ensures CheckId(Num(n as real)) == GoodId(Num(n as real))
    ensures CheckId(Str(IntToString(n))) == GoodId(Num(n as real))
  {
    ParseIntOfIntToString(n);
    assert IntToString(n) != "";
  }

  /**
   * A get/complete step: check the id, and only with a usable id call the
   * record system and render what it returns; its error propagates.
   */
  function Lookup(raw: Value, missingPrompt: string, invalidText: string, request: Value -> Api.Request,
                  reply: Outcome<Data>, render: Data -> string): (h: Handled)
    ensures h.call.None? <==> !CheckId(raw).GoodId?
    ensures CheckId(raw).NoId? ==> h.result == Returned(missingPrompt)
    ensures CheckId(raw).BadId? ==> h.result == Returned(invalidText)
    ensures CheckId(raw).GoodId? ==> h.call == Some(request(CheckId(raw).id))
    ensures h.call.Some? && reply.Threw? ==> h.result == Threw(reply.message)
    ensures h.call.Some? && reply.Returned? ==> h.result == Returned(render(reply.value))
  {
    match CheckId(raw)
    case NoId => Handled(Returned(missingPrompt), None)
    case BadId => Handled(Returned(invalidText), None)
    case GoodId(id) =>
      var result := match reply
        case Returned(record) => Returned(render(record))
        case Threw(message) => Threw(message);
      Handled(result, Some(request(id)))
  }

  // ---------------------------------------------------------------------
  // Missing fields
  // ---------------------------------------------------------------------

  /** `requiredFields.filter(field => !data[field])`: the falsy fields, in the order given. */
  function MissingFields(d: Data, fields: seq<string>): (r: seq<string>)
    ensures |r| <= |fields|
    ensures forall f :: f in r <==> f in fields && !Truthy(Get(d, f))
  {
    if fields == [] then []
    else (if Truthy(Get(d, fields[0])) then [] else [fields[0]]) + MissingFields(d, fields[1..])
  }

  /** The first field of the list is reported first when it is missing. */
  lemma MissingFieldsKeepsOrder(d: Data, first: string, rest: seq<string>)
    ensures !Truthy(Get(d, first)) ==> MissingFields(d, [first] + rest)[0] == first
    ensures Truthy(Get(d, first)) ==> MissingFields(d, [first] + rest) == MissingFields(d, rest)
  {
    assert ([first] + rest)[1..] == rest;
  }

  /** Filtering a list in two pieces gives the two filtered pieces in the same order. */
  lemma {:induction false} MissingFieldsAppend(d: Data, a: seq<string>, b: seq<string>)
    ensures MissingFields(d, a + b) == MissingFields(d, a) + MissingFields(d, b)
    decreases |a|
  {
    if a == [] {
      assert a + b == b;
    } else {
      assert (a + b)[1..] == a[1..] + b;
      MissingFieldsAppend(d, a[1..], b);
    }
  }

  const StillNeedPrefix := "I still need: "

  /** `I still need: ${missingFields.join(', ')}` */
  function StillNeed(missing: seq<string>): string
  {
    StillNeedPrefix + Join(missing, ", ")
  }

  // ---------------------------------------------------------------------
  // Lists
  // ---------------------------------------------------------------------

  /** At most twenty records are shown. */
  const DisplayLimit: nat := 20

  /** The rendered rows, one after the other. */
  function Rows<T>(render: T -> string, rows: seq<T>): string
  {
    if rows == [] then "" else render(rows[0]) + Rows(render, rows[1..])
  }

  lemma {:induction false} RowsAppend<T>(render: T -> string, a: seq<T>, b: seq<T>)
    ensures Rows(render, a + b) == Rows(render, a) + Rows(render, b)
    decreases |a|
  {
    if a == [] {
      assert a + b == b;
    } else {
      assert (a + b)[1..] == a[1..] + b;
      RowsAppend(render, a[1..], b);
    }
  }

  /** `${currencyCode || 'USD'}`: a record's currency, US dollars when it names none. */
  function CurrencyLabel(code: Value): (r: string)
    ensures Truthy(code) ==> r == ToText(code)
    ensures !Truthy(code) ==> r == "USD"
  {
    OrElse(code, "USD")
  }

  /** `#${id} ${fields}\n`: a record's line in a list, opening with its id. */
  function RecordLine(id: Value, fields: string): (line: string)
    ensures "#" + ToText(id) + " " <= line
    ensures line[|line| - 1] == '\n'
  {
    "#" + ToText(id) + " " + fields + "\n"
  }

  /**
   * `${text}\n${v ? label + v : ''}`: the closing line of a details reply
   * shows the field when it is set and is empty otherwise.
   */
  function WithLastLine(text: string, v: Value, caption: string): (r: string)
    ensures text <= r && |text| < |r|
    ensures Truthy(v) ==> |caption + ToText(v)| <= |r| && r[|r| - |caption + ToText(v)|..] == caption + ToText(v)
    ensures !Truthy(v) ==> r[|r| - 1] == '\n'
  {
    text + "\n" + (if Truthy(v) then caption + ToText(v) else "")
  }

  /** A record's line shows every piece of its fields. */
  lemma RecordLineShows(id: Value, before: string, piece: string, after: string)
    ensures Contains(RecordLine(id, before + piece + after), piece)
  {
    assert RecordLine(id, before + piece + after) == ("#" + ToText(id) + " " + before) + piece + (after + "\n");
    ContainsInfix("#" + ToText(id) + " " + before, piece, after + "\n");
  }

  /** The `forEach` that appends one rendered row per shown record (`slice(0, 20)`). */
  method RenderRows<T>(header: string, rows: seq<T>, render: T -> string) returns (response: string)
    ensures response == header + Rows(render, rows[..Min(DisplayLimit, |rows|)])
  {
    var shown := rows[..Min(DisplayLimit, |rows|)];
    response := header;
    for i := 0 to |shown|
      invariant response == header + Rows(render, shown[..i])
    {
      RowsAppend(render, shown[..i], [shown[i]]);
      assert shown[..i + 1] == shown[..i] + [shown[i]];
      assert Rows(render, [shown[i]]) == render(shown[i]);
      response := response + render(shown[i]);
    }
    assert shown[..|shown|] == shown;
  }

  /** The note appended when more records were found than are shown. */
  function WithTrailer(response: string, remaining: int, more: string, tip: string): (r: string)
    ensures remaining <= 0 ==> r == response
    ensures remaining > 0 ==> |r| > |response| && r[..|response|] == response
  {
    if remaining > 0 then response + "\n... and " + IntToString(remaining) + more + tip else response
  }

  /** A whole list reply: header, the first twenty rows, and the trailer when rows were left out. */
  function Listing<T>(header: string, rows: seq<T>, render: T -> string, more: string, tip: string): string
  {
    WithTrailer(header + Rows(render, rows[..Min(DisplayLimit, |rows|)]), |rows| - DisplayLimit, more, tip)
  }

  /** Up to twenty records, every row is shown and there is no trailer. */
  lemma ListingOfFewRows<T>(header: string, rows: seq<T>, render: T -> string, more: string, tip: string)
    requires |rows| <= DisplayLimit
    ensures Listing(header, rows, render, more, tip) == header + Rows(render, rows)
  {
    assert rows[..|rows|] == rows;
  }

  /** Beyond twenty records, the first twenty are shown and the trailer counts the others. */
  lemma ListingOfManyRows<T>(header: string, rows: seq<T>, render: T -> string, more: string, tip: string)
    requires |rows| > DisplayLimit
    ensures Listing(header, rows, render, more, tip) ==
      header + Rows(render, rows[..DisplayLimit]) + "\n... and " + IntToString(|rows| - DisplayLimit) + more + tip
  {
  }
}

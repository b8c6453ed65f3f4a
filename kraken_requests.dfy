/**
 * The decisions the Kraken REST client takes around its HTTP calls: whether a response
 * counts as a success, which URL a request goes to and which path is signed, how the pair
 * key is picked out of a result, how the order-book count is clamped, and which keys the
 * request payloads carry. The HTTP exchange itself is not modelled: a response is given as
 * its status code, its error list and its result.
 */
module KrakenRequests {
  import opened Wrappers
  import Endpoints

  // ---------------------------------------------------------------------------
  // Responses
  // ---------------------------------------------------------------------------

  /** The parts of a decoded response that the client looks at. */
  datatype Response<R> = Response(statusCode: int, errors: seq<string>, result: R)

  /** The second half of the pair a request returns. */
  datatype Body<R> = ResultBody(result: R) | ErrorBody(errors: seq<string>) | FileSaved

  /** The `(request_success, body)` pair a request returns. */
  datatype Reply<R> = Reply(success: bool, body: Body<R>)

  /** The success rule of `get_request` and `post_request`. */
  function Decide<R>(response: Response<R>): (reply: Reply<R>)
    ensures reply.success <==> response.statusCode == 200 && |response.errors| == 0
    ensures reply.success ==> reply.body == ResultBody(response.result)
    ensures !reply.success ==> reply.body == ErrorBody(response.errors)
  {
    var success := response.statusCode == 200 && |response.errors| == 0;
    if success then Reply(success, ResultBody(response.result))
    else Reply(success, ErrorBody(response.errors))
  }

  /** A failed reply always carries a reason: a status other than 200 or a non-empty error list. */
  lemma FailureHasReason<R>(response: Response<R>)
    ensures !Decide(response).success ==>
              response.statusCode != 200 || |Decide(response).body.errors| > 0
    ensures Decide(response).success ==> Decide(response).body.ResultBody?
  {
  }

  /** `get_request`: the URL it calls and the reply it returns. */
  function GetRequest<R>(endpoint: string, response: Response<R>): (call: (string, Reply<R>))
    ensures call.0 == Endpoints.PublicEndpoint(endpoint)
    ensures call.1 == Decide(response)
  {
    (Endpoints.PublicEndpoint(endpoint), Decide(response))
  }

  /** The path `post_request` signs: the private prefix and the endpoint, without the domain. */
  function SignedPath(endpoint: string): (path: string)
    ensures Endpoints.ApiDomain + path == Endpoints.PrivateEndpoint(endpoint)
    ensures Endpoints.PrivateEndpoint(endpoint)[|Endpoints.ApiDomain|..] == path
  {
    Endpoints.PrivatePrefix + endpoint
  }

  /** Why `post_request` raises. */
  datatype PostError = FilenameMissing

  /**
   * `post_request`'s reply. When asked to save the response to a file it needs a file name
   * (the request has already been sent when the missing name is noticed) and then reports
   * success whatever the response; otherwise it applies the success rule.
   */
  function PostRequest<R>(response: Response<R>, fileSave: bool, fileName: Option<string>)
    : (r: Result<Reply<R>, PostError>)
    ensures r.Err? <==> fileSave && fileName.None?
    ensures r.Ok? && fileSave ==> r.value == Reply(true, FileSaved)
    ensures !fileSave ==> r == Ok(Decide(response))
  {
    if fileSave then
      if fileName.None? then Err(FilenameMissing) else Ok(Reply(true, FileSaved))
    else
      Ok(Decide(response))
  }

  // ---------------------------------------------------------------------------
  // get_pair_from_result
  // ---------------------------------------------------------------------------

  const LastKey: string := "last"

  /** The last key, in iteration order, that is not "last"; None when there is none. */
  function LastPairKey(keys: seq<string>): (pair: Option<string>)
    ensures pair.Some? ==> pair.value in keys && pair.value != LastKey
  {
    if |keys| == 0 then None
    else if keys[|keys| - 1] != LastKey then Some(keys[|keys| - 1])
    else LastPairKey(keys[..|keys| - 1])
  }

  /** What `LastPairKey` returns is a key other than "last"; it is None iff every key is "last". */
  lemma {:induction false} LastPairKeyIsPairKey(keys: seq<string>)
    ensures LastPairKey(keys).Some? ==>
              LastPairKey(keys).value in keys && LastPairKey(keys).value != LastKey
    ensures LastPairKey(keys).None? <==> forall i :: 0 <= i < |keys| ==> keys[i] == LastKey
  {
    if |keys| > 0 && keys[|keys| - 1] == LastKey {
      var init := keys[..|keys| - 1];
      LastPairKeyIsPairKey(init);
      assert keys == init + [LastKey];
      assert forall i :: 0 <= i < |init| ==> init[i] == keys[i];
    }
  }

  /** For the result shape the API returns, {pair, "last"}, the pair is found in either order. */
  lemma PairFoundInEitherOrder(pair: string)
    requires pair != LastKey
    ensures LastPairKey([pair, LastKey]) == Some(pair)
    ensures LastPairKey([LastKey, pair]) == Some(pair)
  {
    assert [pair, LastKey][..1] == [pair];
  }

  /** `get_pair_from_result`: walks the keys of the result, remembering every key but "last". */
  method GetPairFromResult(keys: seq<string>) returns (pair: Option<string>)
    ensures pair == LastPairKey(keys)
    ensures pair.Some? ==> pair.value in keys && pair.value != LastKey
    ensures pair.None? <==> forall i :: 0 <= i < |keys| ==> keys[i] == LastKey
  {
    pair := None;
    for i := 0 to |keys|
      invariant pair == LastPairKey(keys[..i])
    {
      if keys[i] != LastKey {
        pair := Some(keys[i]);
      }
      assert keys[..i + 1][..i] == keys[..i];
    }
    assert keys[..|keys|] == keys;
    LastPairKeyIsPairKey(keys);
  }

  // ---------------------------------------------------------------------------
  // Payloads
  // ---------------------------------------------------------------------------

  /** A payload value: the client sends strings, integers and booleans. */
  datatype Param = Text(text: string) | Int(number: int) | Flag(flag: bool)

  /** The payload keys the modelled requests use, each with the name it has on the wire. */
  datatype Field =
    | Nonce | Trades | Closetime | Userref | Start | End | Ofs
    | Pair | Count
    | Type | OrderType | Volume | Price | Price2 | Trigger | Leverage | Oflags
    | TimeInForce | Starttm | Expiretm | CloseOrderType | ClosePrice | ClosePrice2
    | Deadline | Validate

  /** The key string a field is sent under. */
  function WireName(f: Field): string
  {
    match f
    case Nonce => "nonce"
    case Trades => "trades"
    case Closetime => "closetime"
    case Userref => "userref"
    case Start => "start"
    case End => "end"
    case Ofs => "ofs"
    case Pair => "pair"
    case Count => "count"
    case Type => "type"
    case OrderType => "ordertype"
    case Volume => "volume"
    case Price => "price"
    case Price2 => "price2"
    case Trigger => "trigger"
    case Leverage => "leverage"
    case Oflags => "oflags"
    case TimeInForce => "timeinforce"
    case Starttm => "starttm"
    case Expiretm => "expiretm"
    case CloseOrderType => "close[ordertype]"
    case ClosePrice => "close[price]"
    case ClosePrice2 => "close[price2]"
    case Deadline => "deadline"
    case Validate => "validate"
  }

  type Payload = map<Field, Param>

  const MinCount: int := 1
  const MaxCount: int := 500

  /** The order-book count brought into the range the API accepts. */
  function ClampCount(count: int): (clamped: int)
    ensures MinCount <= clamped <= MaxCount
    ensures MinCount <= count <= MaxCount ==> clamped == count
  {
    if count < MinCount then MinCount else if count > MaxCount then MaxCount else count
  }

  /** Clamping lands in [1, 500], keeps in-range counts, and changes nothing a second time. */
  lemma ClampCountProperties(count: int)
    ensures MinCount <= ClampCount(count) <= MaxCount
    ensures MinCount <= count <= MaxCount <==> ClampCount(count) == count
    ensures count < MinCount ==> ClampCount(count) == MinCount
    ensures count > MaxCount ==> ClampCount(count) == MaxCount
    ensures ClampCount(ClampCount(count)) == ClampCount(count)
  {
  }

  /** `get_order_book`: clamps `count` in place and builds the payload. */
  method OrderBookPayload(pair: string, count: int) returns (payload: Payload)
    ensures payload.Keys == {Pair, Count}
    ensures payload[Pair] == Text(pair)
    ensures payload[Count] == Int(ClampCount(count))
    ensures MinCount <= payload[Count].number <= MaxCount
  {
    var c := count;
    if c < 1 {
      c := 1;
    } else if c > 500 {
      c := 500;
    }
    payload := map[Pair := Text(pair), Count := Int(c)];
  }

  /** An optional string argument as the payload value it becomes: None stays None. */
  function TextArg(arg: Option<string>): Option<Param>
  {
    if arg.Some? then Some(Text(arg.value)) else None
  }

  /** An optional integer argument as the payload value it becomes. */
  function IntArg(arg: Option<int>): Option<Param>
  {
    if arg.Some? then Some(Int(arg.value)) else None
  }

  /** Every field, so that payload specifications can range over a finite set. */
  const AllFields: set<Field> :=
    {Nonce, Trades, Closetime, Userref, Start, End, Ofs, Pair, Count, Type, OrderType, Volume,
     Price, Price2, Trigger, Leverage, Oflags, TimeInForce, Starttm, Expiretm, CloseOrderType,
     ClosePrice, ClosePrice2, Deadline, Validate}

  lemma AllFieldsIsEveryField(f: Field)
    ensures f in AllFields
  {
  }

  /** `payload.get(key)`: the value sent under a field, None when the field is not sent. */
  function Get(payload: Payload, f: Field): Option<Param>
  {
    if f in payload then Some(payload[f]) else None
  }

  /** Two payloads that agree on every lookup are the same payload. */
  lemma SameLookupsSamePayload(p: Payload, q: Payload)
    requires forall f :: Get(p, f) == Get(q, f)
    ensures p == q
  {
    forall f | f in p
      ensures f in q && p[f] == q[f]
    {
      assert Get(p, f) == Get(q, f);
    }
    forall f | f in q
      ensures f in p
    {
      assert Get(p, f) == Get(q, f);
    }
  }

  /** The payload after `if arg is not None: payload[key] = arg`. */
  function Put(payload: Payload, key: Field, arg: Option<Param>): (updated: Payload)
    ensures Get(updated, key) == if arg.Some? then arg else Get(payload, key)
  {
    if arg.Some? then payload[key := arg.value] else payload
  }

  /** A conditional insertion changes the lookup of its own key only, and only when given. */
  lemma PutAt(payload: Payload, key: Field, arg: Option<Param>, f: Field)
    ensures Get(Put(payload, key, arg), f) == if f == key && arg.Some? then arg else Get(payload, f)
  {
  }

  /** The conditional insertion both payload builders repeat. */
  method PutIfGiven(payload: Payload, key: Field, arg: Option<Param>) returns (updated: Payload)
    ensures updated == Put(payload, key, arg)
  {
    updated := payload;
    if arg.Some? {
      updated := updated[key := arg.value];
    }
  }

  // ---------------------------------------------------------------------------
  // get_closed_orders
  // ---------------------------------------------------------------------------

  /** What `get_closed_orders` sends under each field; None when the field is not sent. */
  function ClosedOrdersField(nonce: int, includeTrades: bool, userref: Option<int>,
                             start: Option<int>, end: Option<int>, offset: Option<int>,
                             closetime: string, f: Field): Option<Param>
  {
    match f
    case Nonce => Some(Int(nonce))
    case Trades => Some(Flag(includeTrades))
    case Closetime => Some(Text(closetime))
    case Userref => IntArg(userref)
    case Start => IntArg(start)
    case End => IntArg(end)
    case Ofs => IntArg(offset)
    case _ => None
  }

  /** The payload `get_closed_orders` sends. */
  function ClosedOrdersSpec(nonce: int, includeTrades: bool, userref: Option<int>,
                            start: Option<int>, end: Option<int>, offset: Option<int>,
                            closetime: string): Payload
  {
    map f | f in AllFields
              && ClosedOrdersField(nonce, includeTrades, userref, start, end, offset, closetime, f).Some?
      :: ClosedOrdersField(nonce, includeTrades, userref, start, end, offset, closetime, f).value
  }

  /**
   * The closed-orders payload always carries the nonce, the trades flag and the close time,
   * each of userref, start, end and offset exactly when it is given, the offset under the
   * field "ofs", and nothing else.
   */
  lemma ClosedOrdersKeys(nonce: int, includeTrades: bool, userref: Option<int>,
                         start: Option<int>, end: Option<int>, offset: Option<int>,
                         closetime: string)
    ensures var p := ClosedOrdersSpec(nonce, includeTrades, userref, start, end, offset, closetime);
      && p.Keys <= {Nonce, Trades, Closetime, Userref, Start, End, Ofs}
      && Nonce in p && p[Nonce] == Int(nonce)
      && Trades in p && p[Trades] == Flag(includeTrades)
      && Closetime in p && p[Closetime] == Text(closetime)
      && (Userref in p <==> userref.Some?) && (userref.Some? ==> p[Userref] == Int(userref.value))
      && (Start in p <==> start.Some?) && (start.Some? ==> p[Start] == Int(start.value))
      && (End in p <==> end.Some?) && (end.Some? ==> p[End] == Int(end.value))
      && (Ofs in p <==> offset.Some?) && (offset.Some? ==> p[Ofs] == Int(offset.value))
  {
    var p := ClosedOrdersSpec(nonce, includeTrades, userref, start, end, offset, closetime);
    forall f | f in p
      ensures f in {Nonce, Trades, Closetime, Userref, Start, End, Ofs}
    {
    }
  }

  /** The closed-orders payload as the client assembles it, one insertion at a time. */
  function ClosedOrdersBuild(nonce: int, includeTrades: bool, userref: Option<int>,
                             start: Option<int>, end: Option<int>, offset: Option<int>,
                             closetime: string): Payload
  {
    var required := map[Nonce := Int(nonce), Trades := Flag(includeTrades),
                         Closetime := Text(closetime)];
    Put(Put(Put(Put(required, Userref, IntArg(userref)), Start, IntArg(start)),
            End, IntArg(end)), Ofs, IntArg(offset))
  }

  /** Looking any field up in the specified payload gives what the field table says. */
  lemma ClosedOrdersSpecAt(nonce: int, includeTrades: bool, userref: Option<int>,
                           start: Option<int>, end: Option<int>, offset: Option<int>,
                           closetime: string, f: Field)
    ensures Get(ClosedOrdersSpec(nonce, includeTrades, userref, start, end, offset, closetime), f)
         == ClosedOrdersField(nonce, includeTrades, userref, start, end, offset, closetime, f)
  {
    AllFieldsIsEveryField(f);
  }

  /** Looking any field up in the assembled payload gives what the field table says. */
  lemma ClosedOrdersBuildAt(nonce: int, includeTrades: bool, userref: Option<int>,
                            start: Option<int>, end: Option<int>, offset: Option<int>,
                            closetime: string, f: Field)
    ensures Get(ClosedOrdersBuild(nonce, includeTrades, userref, start, end, offset, closetime), f)
         == ClosedOrdersField(nonce, includeTrades, userref, start, end, offset, closetime, f)
  {
    var p0 := map[Nonce := Int(nonce), Trades := Flag(includeTrades), Closetime := Text(closetime)];
    var p1 := Put(p0, Userref, IntArg(userref));
    var p2 := Put(p1, Start, IntArg(start));
    var p3 := Put(p2, End, IntArg(end));
    PutAt(p0, Userref, IntArg(userref), f);
    PutAt(p1, Start, IntArg(start), f);
    PutAt(p2, End, IntArg(end), f);
    PutAt(p3, Ofs, IntArg(offset), f);
    if f !in {Userref, Start, End, Ofs} {
      assert Get(ClosedOrdersBuild(nonce, includeTrades, userref, start, end, offset, closetime), f)
          == Get(p0, f);
    }
  }

  /** The step-by-step assembly yields exactly the specified payload. */
  lemma ClosedOrdersBuildIsSpec(nonce: int, includeTrades: bool, userref: Option<int>,
                                start: Option<int>, end: Option<int>, offset: Option<int>,
                                closetime: string)
    ensures ClosedOrdersBuild(nonce, includeTrades, userref, start, end, offset, closetime)
         == ClosedOrdersSpec(nonce, includeTrades, userref, start, end, offset, closetime)
  {
    var spec := ClosedOrdersSpec(nonce, includeTrades, userref, start, end, offset, closetime);
    var built := ClosedOrdersBuild(nonce, includeTrades, userref, start, end, offset, closetime);
    forall f
      ensures Get(built, f) == Get(spec, f)
    {
      ClosedOrdersSpecAt(nonce, includeTrades, userref, start, end, offset, closetime, f);
      ClosedOrdersBuildAt(nonce, includeTrades, userref, start, end, offset, closetime, f);
    }
    SameLookupsSamePayload(built, spec);
  }

  /**
   * `get_closed_orders`'s payload, built as the client builds it. The nonce comes from the
   * clock in the client and is a parameter here.
   */
  method ClosedOrdersPayload(nonce: int, includeTrades: bool, userref: Option<int>,
                             start: Option<int>, end: Option<int>, offset: Option<int>,
                             closetime: string)
    returns (payload: Payload)
    ensures payload == ClosedOrdersSpec(nonce, includeTrades, userref, start, end, offset, closetime)
  {
    payload := map[Nonce := Int(nonce), Trades := Flag(includeTrades),
                   Closetime := Text(closetime)];
    payload := PutIfGiven(payload, Userref, IntArg(userref));
    payload := PutIfGiven(payload, Start, IntArg(start));
    payload := PutIfGiven(payload, End, IntArg(end));
    payload := PutIfGiven(payload, Ofs, IntArg(offset));
    ClosedOrdersBuildIsSpec(nonce, includeTrades, userref, start, end, offset, closetime);
  }

  /** The offset of `get_closed_orders` travels under the wire key "ofs", never "offset". */
  lemma OffsetTravelsAsOfs()
    ensures WireName(Ofs) == "ofs"
    ensures forall f: Field :: WireName(f) != "offset"
  {
  }

  // ---------------------------------------------------------------------------
  // add_order
  // ---------------------------------------------------------------------------

  /** The arguments of `add_order` after the credentials; None stands for an omitted argument. */
  datatype OrderArgs = OrderArgs(
    pair: string,
    side: string,            // `type`: "buy" or "sell"
    orderType: string,
    volume: int,
    price: Option<string>,
    price2: Option<string>,
    trigger: string,         // accepted, never sent
    leverage: Option<string>,
    oflags: Option<string>,
    timeinforce: string,
    starttm: Option<string>,
    expiretm: Option<string>,
    closeOrderType: Option<string>,
    closePrice: Option<string>,
    closePrice2: Option<string>,
    deadline: Option<string>,
    userref: Option<int>,
    validate: bool)

  /** The keys `add_order` always sends. */
  const AddOrderRequired: set<Field> :=
    {Nonce, Pair, Type, OrderType, Volume, TimeInForce, Validate}

  /** The keys `add_order` sends only when the matching argument is given. */
  const AddOrderOptional: set<Field> :=
    {Price, Price2, Leverage, Oflags, Starttm, Expiretm, CloseOrderType, ClosePrice,
     ClosePrice2, Deadline, Userref}

  /** What `add_order` sends under each field; None when the field is not sent. */
  function AddOrderField(nonce: int, args: OrderArgs, f: Field): Option<Param>
  {
    match f
    case Nonce => Some(Int(nonce))
    case Pair => Some(Text(args.pair))
    case Type => Some(Text(args.side))
    case OrderType => Some(Text(args.orderType))
    case Volume => Some(Int(args.volume))
    case TimeInForce => Some(Text(args.timeinforce))
    case Validate => Some(Flag(args.validate))
    case Price => TextArg(args.price)
    case Price2 => TextArg(args.price2)
    case Leverage => TextArg(args.leverage)
    case Oflags => TextArg(args.oflags)
    case Starttm => TextArg(args.starttm)
    case Expiretm => TextArg(args.expiretm)
    case CloseOrderType => TextArg(args.closeOrderType)
    case ClosePrice => TextArg(args.closePrice)
    case ClosePrice2 => TextArg(args.closePrice2)
    case Deadline => TextArg(args.deadline)
    case Userref => IntArg(args.userref)
    case _ => None
  }

  /** The payload `add_order` sends. */
  function AddOrderSpec(nonce: int, args: OrderArgs): Payload
  {
    map f | f in AllFields && AddOrderField(nonce, args, f).Some? :: AddOrderField(nonce, args, f).value
  }

  /** The add-order payload carries only known keys, and never the trigger. */
  lemma AddOrderKnownKeys(nonce: int, args: OrderArgs)
    ensures AddOrderSpec(nonce, args).Keys <= AddOrderRequired + AddOrderOptional
    ensures Trigger !in AddOrderSpec(nonce, args)
  {
    var p := AddOrderSpec(nonce, args);
    forall f | f in p
      ensures f in AddOrderRequired + AddOrderOptional
    {
    }
  }

  /** Every required field of `add_order` is sent, with the value its argument gives. */
  lemma AddOrderRequiredSent(nonce: int, args: OrderArgs, f: Field)
    requires f in AddOrderRequired
    ensures f in AddOrderSpec(nonce, args)
    ensures AddOrderSpec(nonce, args)[f] == AddOrderField(nonce, args, f).value
    ensures AddOrderSpec(nonce, args)[f]
            == match f
               case Nonce => Int(nonce)
               case Pair => Text(args.pair)
               case Type => Text(args.side)
               case OrderType => Text(args.orderType)
               case Volume => Int(args.volume)
               case TimeInForce => Text(args.timeinforce)
               case _ => Flag(args.validate)
  {
    AllFieldsIsEveryField(f);
  }

  /**
   * Every optional field of `add_order` is sent exactly when its argument is given, with
   * that argument's value.
   */
  lemma AddOrderOptionalSentIffGiven(nonce: int, args: OrderArgs, f: Field)
    requires f in AddOrderOptional
    ensures SentIffGiven(AddOrderSpec(nonce, args), f, AddOrderField(nonce, args, f))
    ensures AddOrderField(nonce, args, f).Some? <==>
              match f
              case Price => args.price.Some?
              case Price2 => args.price2.Some?
              case Leverage => args.leverage.Some?
              case Oflags => args.oflags.Some?
              case Starttm => args.starttm.Some?
              case Expiretm => args.expiretm.Some?
              case CloseOrderType => args.closeOrderType.Some?
              case ClosePrice => args.closePrice.Some?
              case ClosePrice2 => args.closePrice2.Some?
              case Deadline => args.deadline.Some?
              case _ => args.userref.Some?
  {
    AllFieldsIsEveryField(f);
  }

  /** The payload carries `key` with the given value exactly when the optional argument is given. */
  ghost predicate SentIffGiven(payload: Payload, key: Field, arg: Option<Param>)
  {
    (key in payload <==> arg.Some?) && (arg.Some? ==> payload[key] == arg.value)
  }

  /** Looking any field up in the specified payload gives what the field table says. */
  lemma AddOrderSpecAt(nonce: int, args: OrderArgs, f: Field)
    ensures Get(AddOrderSpec(nonce, args), f) == AddOrderField(nonce, args, f)
  {
    AllFieldsIsEveryField(f);
  }

  /** The dictionary literal `add_order` starts from: the fields it always sends. */
  function AddOrderRequiredPayload(nonce: int, args: OrderArgs): Payload
  {
    map[Nonce := Int(nonce),
        Pair := Text(args.pair),
        Type := Text(args.side),
        OrderType := Text(args.orderType),
        Volume := Int(args.volume),
        TimeInForce := Text(args.timeinforce),
        Validate := Flag(args.validate)]
  }

  lemma AddOrderRequiredAt(nonce: int, args: OrderArgs, f: Field)
    ensures Get(AddOrderRequiredPayload(nonce, args), f)
            == if f in AddOrderRequired then AddOrderField(nonce, args, f) else None
  {
  }

  /** The add-order payload after the price, leverage and flag insertions. */
  function AddOrderPricedPayload(nonce: int, args: OrderArgs): Payload
  {
    var required := AddOrderRequiredPayload(nonce, args);
    var prices := Put(Put(required, Price, TextArg(args.price)), Price2, TextArg(args.price2));
    Put(Put(prices, Leverage, TextArg(args.leverage)), Oflags, TextArg(args.oflags))
  }

  /** The add-order payload after the start, expiry and close-order-type insertions. */
  function AddOrderTimedPayload(nonce: int, args: OrderArgs): Payload
  {
    var priced := AddOrderPricedPayload(nonce, args);
    var times := Put(Put(priced, Starttm, TextArg(args.starttm)), Expiretm, TextArg(args.expiretm));
    Put(times, CloseOrderType, TextArg(args.closeOrderType))
  }

  /** The add-order payload as the client assembles it, one insertion at a time. */
  function AddOrderBuild(nonce: int, args: OrderArgs): Payload
  {
    var timed := AddOrderTimedPayload(nonce, args);
    var close := Put(Put(timed, ClosePrice, TextArg(args.closePrice)), ClosePrice2, TextArg(args.closePrice2));
    Put(Put(close, Deadline, TextArg(args.deadline)), Userref, IntArg(args.userref))
  }

  lemma AddOrderPricedAt(nonce: int, args: OrderArgs, f: Field)
    ensures Get(AddOrderPricedPayload(nonce, args), f)
            == if f in AddOrderRequired + {Price, Price2, Leverage, Oflags}
               then AddOrderField(nonce, args, f) else None
  {
    var p0 := AddOrderRequiredPayload(nonce, args);
    AddOrderRequiredAt(nonce, args, f);
    var p1 := Put(p0, Price, TextArg(args.price));
    var p2 := Put(p1, Price2, TextArg(args.price2));
    var p3 := Put(p2, Leverage, TextArg(args.leverage));
    PutAt(p0, Price, TextArg(args.price), f);
    PutAt(p1, Price2, TextArg(args.price2), f);
    PutAt(p2, Leverage, TextArg(args.leverage), f);
    PutAt(p3, Oflags, TextArg(args.oflags), f);
    if f !in {Price, Price2, Leverage, Oflags} {
      assert Get(AddOrderPricedPayload(nonce, args), f) == Get(p0, f);
    }
  }

  /** The start, expiry and close-order-type insertions, on any payload that is right up to the flags. */
  lemma AddOrderTimedInsertionsAt(priced: Payload, nonce: int, args: OrderArgs, f: Field)
    requires Get(priced, f)
             == if f in AddOrderRequired + {Price, Price2, Leverage, Oflags}
                then AddOrderField(nonce, args, f) else None
    ensures Get(Put(Put(Put(priced, Starttm, TextArg(args.starttm)),
                            Expiretm, TextArg(args.expiretm)),
                        CloseOrderType, TextArg(args.closeOrderType)), f)
            == if f in AddOrderRequired + {Price, Price2, Leverage, Oflags, Starttm, Expiretm, CloseOrderType}
               then AddOrderField(nonce, args, f) else None
  {
    var p5 := Put(priced, Starttm, TextArg(args.starttm));
    var p6 := Put(p5, Expiretm, TextArg(args.expiretm));
    PutAt(priced, Starttm, TextArg(args.starttm), f);
    PutAt(p5, Expiretm, TextArg(args.expiretm), f);
    PutAt(p6, CloseOrderType, TextArg(args.closeOrderType), f);
  }

  lemma AddOrderTimedAt(nonce: int, args: OrderArgs, f: Field)
    ensures Get(AddOrderTimedPayload(nonce, args), f)
            == if f in AddOrderRequired + {Price, Price2, Leverage, Oflags, Starttm, Expiretm, CloseOrderType}
               then AddOrderField(nonce, args, f) else None
  {
    AddOrderPricedAt(nonce, args, f);
    AddOrderTimedInsertionsAt(AddOrderPricedPayload(nonce, args), nonce, args, f);
  }

  /** A field `add_order` neither requires nor accepts has no value in its field table. */
  lemma AddOrderFieldOutside(nonce: int, args: OrderArgs, f: Field)
    requires f !in AddOrderRequired && f !in AddOrderOptional
    ensures AddOrderField(nonce, args, f) == None
  {
  }

  /** The last four insertions of `add_order`, on any payload that is right up to the close-order type. */
  lemma AddOrderLastInsertionsAt(timed: Payload, nonce: int, args: OrderArgs, f: Field)
    requires Get(timed, f)
             == if f in AddOrderRequired + {Price, Price2, Leverage, Oflags, Starttm, Expiretm, CloseOrderType}
                then AddOrderField(nonce, args, f) else None
    ensures Get(Put(Put(Put(Put(timed, ClosePrice, TextArg(args.closePrice)),
                                ClosePrice2, TextArg(args.closePrice2)),
                            Deadline, TextArg(args.deadline)),
                        Userref, IntArg(args.userref)), f)
            == if f in AddOrderRequired + AddOrderOptional then AddOrderField(nonce, args, f) else None
  {
    var p8 := Put(timed, ClosePrice, TextArg(args.closePrice));
    var p9 := Put(p8, ClosePrice2, TextArg(args.closePrice2));
    var p10 := Put(p9, Deadline, TextArg(args.deadline));
    PutAt(timed, ClosePrice, TextArg(args.closePrice), f);
    PutAt(p8, ClosePrice2, TextArg(args.closePrice2), f);
    PutAt(p9, Deadline, TextArg(args.deadline), f);
    PutAt(p10, Userref, IntArg(args.userref), f);
  }

  lemma AddOrderCompleteAt(nonce: int, args: OrderArgs, f: Field)
    ensures Get(AddOrderBuild(nonce, args), f)
            == if f in AddOrderRequired + AddOrderOptional then AddOrderField(nonce, args, f) else None
  {
    AddOrderTimedAt(nonce, args, f);
    AddOrderLastInsertionsAt(AddOrderTimedPayload(nonce, args), nonce, args, f);
  }

  /** Looking any field up in the assembled payload gives what the field table says. */
  lemma AddOrderBuildAt(nonce: int, args: OrderArgs, f: Field)
    ensures Get(AddOrderBuild(nonce, args), f) == AddOrderField(nonce, args, f)
  {
    AddOrderCompleteAt(nonce, args, f);
    if f !in AddOrderRequired + AddOrderOptional {
      AddOrderFieldOutside(nonce, args, f);
    }
  }

  /** The step-by-step assembly yields exactly the specified payload. */
  lemma AddOrderBuildIsSpec(nonce: int, args: OrderArgs)
    ensures AddOrderBuild(nonce, args) == AddOrderSpec(nonce, args)
  {
    var spec := AddOrderSpec(nonce, args);
    var built := AddOrderBuild(nonce, args);
    forall f
      ensures Get(built, f) == Get(spec, f)
    {
      AddOrderSpecAt(nonce, args, f);
      AddOrderBuildAt(nonce, args, f);
    }
    SameLookupsSamePayload(built, spec);
  }

  /**
   * `add_order`'s payload, built as the client builds it. The nonce comes from the clock in
   * the client and is a parameter here.
   */
  method AddOrderPayload(nonce: int, args: OrderArgs) returns (payload: Payload)
    ensures payload == AddOrderSpec(nonce, args)
  {
    payload := map[
      Nonce := Int(nonce),
      Pair := Text(args.pair),
      Type := Text(args.side),
      OrderType := Text(args.orderType),
      Volume := Int(args.volume),
      TimeInForce := Text(args.timeinforce),
      Validate := Flag(args.validate)];
    payload := PutIfGiven(payload, Price, TextArg(args.price));
    payload := PutIfGiven(payload, Price2, TextArg(args.price2));
    payload := PutIfGiven(payload, Leverage, TextArg(args.leverage));
    payload := PutIfGiven(payload, Oflags, TextArg(args.oflags));
    payload := PutIfGiven(payload, Starttm, TextArg(args.starttm));
    payload := PutIfGiven(payload, Expiretm, TextArg(args.expiretm));
    payload := PutIfGiven(payload, CloseOrderType, TextArg(args.closeOrderType));
    payload := PutIfGiven(payload, ClosePrice, TextArg(args.closePrice));
    payload := PutIfGiven(payload, ClosePrice2, TextArg(args.closePrice2));
    payload := PutIfGiven(payload, Deadline, TextArg(args.deadline));
    payload := PutIfGiven(payload, Userref, IntArg(args.userref));
    AddOrderBuildIsSpec(nonce, args);
  }
}

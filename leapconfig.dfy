/** The pending-transaction table of the Leap Motion configuration wrapper
    (LeapMotion/Config.cs): requests record a callback under the request id the
    service hands out, and the two response handlers run and drop it. The connection
    that hands out ids and raises the responses is outside the model. */
module LeapConfig {
  import opened Strings

  /** Config.ValueType. */
  datatype ValueType = TypeUnknown | TypeBoolean | TypeInt32 | TypeFloat | TypeString

  /** The parameter type of a callback delegate (`Action<T>`). `ObjectParam` is a
      reference type that string converts to (object, IComparable, IEnumerable<char>,
      ...): `Action<in T>` is contravariant, so such a delegate passes the cast to
      `Action<string>`. Variance does not apply to the value types bool, int and float. */
  datatype ParamType = BoolParam | FloatParam | Int32Param | StringParam | ObjectParam | OtherParam

  /** `actionDelegate as Action<string>` succeeds. */
  predicate TakesString(param: ParamType) {
    param == StringParam || param == ObjectParam
  }

  /** A callback: an identity for the delegate and its parameter type. */
  datatype Callback = Callback(handle: nat, param: ParamType)

  /** The value of a config response, tagged with its data type; a boolean arrives as an int. */
  datatype ResponseValue =
    | BooleanValue(raw: int)
    | Int32Value(i: int)
    | FloatValue(f: real)
    | StringValue(s: string)
    | UnknownValue

  /** The argument a callback is invoked with. */
  datatype Argument = BoolArg(b: bool) | Int32Arg(i: int) | FloatArg(f: real) | StringArg(s: string)

  datatype Invocation = Invocation(handle: nat, arg: Argument)

  /** What Get and Set end with: a returned bool, or the ArgumentException of
      Dictionary.Add for an id already pending. */
  datatype RequestResult = Returns(ok: bool) | ThrowsDuplicateKey

  datatype ConfigChange = ConfigChange(requestId: nat, succeeded: bool)

  datatype ConfigResponse = ConfigResponse(requestId: nat, value: ResponseValue)

  function DataType(v: ResponseValue): ValueType {
    match v
    case BooleanValue(_) => TypeBoolean
    case Int32Value(_) => TypeInt32
    case FloatValue(_) => TypeFloat
    case StringValue(_) => TypeString
    case UnknownValue => TypeUnknown
  }

  /** The argument the callback is run with, if the delegate passes the cast for the
      data type (`actionDelegate as Action<T>` is null otherwise): a string response
      also reaches an `ObjectParam` delegate. */
  function ResponseArgument(param: ParamType, v: ResponseValue): (r: Option<Argument>)
    ensures r.Some? ==> DataType(v) != TypeUnknown
    ensures r.Some? <==> (match v
      case BooleanValue(_) => param == BoolParam
      case Int32Value(_) => param == Int32Param
      case FloatValue(_) => param == FloatParam
      case StringValue(_) => param == StringParam || param == ObjectParam
      case UnknownValue => false)
  {
    match v
    case BooleanValue(raw) => if param == BoolParam then Some(BoolArg(raw != 0)) else None
    case Int32Value(i) => if param == Int32Param then Some(Int32Arg(i)) else None
    case FloatValue(f) => if param == FloatParam then Some(FloatArg(f)) else None
    case StringValue(s) => if TakesString(param) then Some(StringArg(s)) else None
    case UnknownValue => None
  }

  class Config {
    /** `_transactions`: request id to pending callback. */
    var transactions: map<nat, Callback>
    /** The callbacks run so far, in order. */
    var invoked: seq<Invocation>

    /** Every pending id is one the service handed out, so it is positive. */
    predicate Valid()
      reads this
    {
      forall id :: id in transactions ==> id > 0
    }

    constructor ()
      ensures Valid() && transactions == map[] && invoked == []
    {
      transactions := map[];
      invoked := [];
    }

    /** Records `onResult` under `requestId` when the id is positive. */
    method Record(requestId: nat, onResult: Callback) returns (result: RequestResult)
      requires Valid()
      modifies this
      ensures Valid() && invoked == old(invoked)
      ensures requestId == 0 ==> result == Returns(false) && transactions == old(transactions)
      ensures requestId > 0 && requestId in old(transactions) ==>
        result == ThrowsDuplicateKey && transactions == old(transactions)
      ensures requestId > 0 && requestId !in old(transactions) ==>
        result == Returns(true) && transactions == old(transactions)[requestId := onResult]
    {
      if requestId > 0 {
        if requestId in transactions {
          return ThrowsDuplicateKey;
        }
        transactions := transactions[requestId := onResult];
        return Returns(true);
      }
      return Returns(false);
    }

    /** Config.Get: `requestId` is what GetConfigValue returned for the key. */
    method Get(requestId: nat, onResult: Callback) returns (result: RequestResult)
      requires Valid()
      modifies this
      ensures Valid() && invoked == old(invoked)
      ensures result == Returns(true) <==> requestId > 0 && requestId !in old(transactions)
      ensures result == Returns(true) ==> transactions == old(transactions)[requestId := onResult]
      ensures result != Returns(true) ==> transactions == old(transactions)
    {
      result := Record(requestId, onResult);
    }

    /** Config.Set: `requestId` is what SetConfigValue returned; the callback takes a bool. */
    method Set(requestId: nat, onResultHandle: nat) returns (result: RequestResult)
      requires Valid()
      modifies this
      ensures Valid() && invoked == old(invoked)
      ensures result == Returns(true) <==> requestId > 0 && requestId !in old(transactions)
      ensures result == Returns(true) ==> transactions == old(transactions)[requestId := Callback(onResultHandle, BoolParam)]
      ensures result != Returns(true) ==> transactions == old(transactions)
    {
      result := Record(requestId, Callback(onResultHandle, BoolParam));
    }

    /** handleConfigChange. */
    method HandleConfigChange(args: Option<ConfigChange>)
      requires Valid()
      modifies this
      ensures Valid()
      ensures args.None? || args.value.requestId !in old(transactions) ==>
        transactions == old(transactions) && invoked == old(invoked)
      ensures args.Some? && args.value.requestId in old(transactions) ==>
        var cb := old(transactions)[args.value.requestId];
        transactions == old(transactions) - {args.value.requestId}
        && invoked == old(invoked) + (if cb.param == BoolParam then [Invocation(cb.handle, BoolArg(args.value.succeeded))] else [])
    {
      if args.None? {
        return;
      }
      var id := args.value.requestId;
      if id in transactions {
        var cb := transactions[id];
        if cb.param == BoolParam {
          invoked := invoked + [Invocation(cb.handle, BoolArg(args.value.succeeded))];
        }
        transactions := transactions - {id};
      }
    }

    /** handleConfigResponse: the pending id is dropped whatever the data type; the
        callback runs only when its parameter type matches. */
    method HandleConfigResponse(args: Option<ConfigResponse>)
      requires Valid()
      modifies this
      ensures Valid()
      ensures args.None? || args.value.requestId !in old(transactions) ==>
        transactions == old(transactions) && invoked == old(invoked)
      ensures args.Some? && args.value.requestId in old(transactions) ==>
        var cb := old(transactions)[args.value.requestId];
        transactions == old(transactions) - {args.value.requestId}
        && invoked == old(invoked) + match ResponseArgument(cb.param, args.value.value)
             case Some(a) => [Invocation(cb.handle, a)]
             case None => []
    {
      if args.None? {
        return;
      }
      var id := args.value.requestId;
      if id in transactions {
        var cb := transactions[id];
        match args.value.value {
          case BooleanValue(raw) =>
            if cb.param == BoolParam {
              invoked := invoked + [Invocation(cb.handle, BoolArg(raw != 0))];
            }
          case FloatValue(f) =>
            if cb.param == FloatParam {
              invoked := invoked + [Invocation(cb.handle, FloatArg(f))];
            }
          case Int32Value(i) =>
            if cb.param == Int32Param {
              invoked := invoked + [Invocation(cb.handle, Int32Arg(i))];
            }
          case StringValue(s) =>
            if TakesString(cb.param) {
              invoked := invoked + [Invocation(cb.handle, StringArg(s))];
            }
          case UnknownValue =>
        }
        transactions := transactions - {id};
      }
    }
  }

  /** A Set answered by its config change leaves the table as it was and runs the
      callback once with the outcome. */
  method SetThenChange(config: Config, requestId: nat, handle: nat, succeeded: bool)
    requires config.Valid() && requestId > 0 && requestId !in config.transactions
    modifies config
    ensures config.Valid() && config.transactions == old(config.transactions)
    ensures config.invoked == old(config.invoked) + [Invocation(handle, BoolArg(succeeded))]
  {
    var r := config.Set(requestId, handle);
    config.HandleConfigChange(Some(ConfigChange(requestId, succeeded)));
  }

  /** A Get answered by its response leaves the table as it was, and runs the callback
      once with the value exactly when the callback accepts the response's type. */
  method GetThenResponse(config: Config, requestId: nat, onResult: Callback, value: ResponseValue)
    requires config.Valid() && requestId > 0 && requestId !in config.transactions
    modifies config
    ensures config.Valid() && config.transactions == old(config.transactions)
    ensures |config.invoked| <= |old(config.invoked)| + 1
    ensures config.invoked == old(config.invoked) + match ResponseArgument(onResult.param, value)
      case Some(a) => [Invocation(onResult.handle, a)]
      case None => []
  {
    var r := config.Get(requestId, onResult);
    config.HandleConfigResponse(Some(ConfigResponse(requestId, value)));
  }

  // ---- the obsolete accessors ----

  /** The obsolete bool-returning accessors of Config. */
  datatype ObsoleteCall =
    | GetBool(key: string) | SetBool(key: string, b: bool)
    | GetInt32(key: string) | SetInt32(key: string, i: int)
    | GetFloat(key: string) | SetFloat(key: string, f: real)
    | GetString(key: string) | SetString(key: string, s: string)
    | Save

  /** Every obsolete accessor reports failure, whatever it is asked. */
  function ObsoleteResult(call: ObsoleteCall): (r: bool)
    ensures !r
  {
    false
  }

  /** Config.Type (obsolete): no key has a known type. */
  function TypeOf(key: string): (t: ValueType)
    ensures t == TypeUnknown
  {
    TypeUnknown
  }
}

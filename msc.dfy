/** Token transfer records and how an expected transfer is compared with one
    found on chain.

    The fields of an expected transfer may hold references into the scenario
    data; they are resolved by the retrieval function of the execution
    utilities, which is not part of this model and is a parameter here. It
    may raise an exception, which the comparison propagates. */
module Msc {
  import opened Wrappers

  /** Any ESDT transfer (simple ESDT, NFT, SFT, MetaESDT); the nonce defaults to 0. */
  datatype EsdtTransfer = EsdtTransfer(tokenIdentifier: string, amount: int, nonce: int := 0)

  /** A token transfer as read from a transaction on chain. */
  datatype OnChainTransfer = OnChainTransfer(sender: string, receiver: string, token: string, amount: string)

  /** The values a transfer field holds and the retrieval can return: an int or a str. */
  datatype Scalar = IntValue(i: int) | StrValue(s: string)

  /** A transfer that a scene expects to find on chain; the amount may be an int or a str. */
  datatype ExpectedTransfer = ExpectedTransfer(sender: string, receiver: string, token: string, amount: Scalar)

  /** The other side of an equality test: one of the two transfer types, or anything else. */
  datatype Object = OnChain(onChain: OnChainTransfer) | Expected(expected: ExpectedTransfer) | Other

  datatype Error =
    | NotImplementedError
    /** An exception raised by the retrieval of a referenced value. */
    | RetrievalError(message: string)

  /** The execution utilities' `retrieve_value_from_string`. */
  type Retriever = string -> Result<Scalar, Error>

  // ----- Python's str() on the scalar values -----

  function DigitChar(d: nat): char
    requires d < 10
  {
    (('0' as int) + d) as char
  }

  function DigitValue(c: char): int
  {
    (c as int) - ('0' as int)
  }

  /** The decimal digits of a natural number, most significant first, without leading zeros. */
  function Digits(n: nat): (r: string)
    ensures |r| >= 1
    ensures forall i :: 0 <= i < |r| ==> '0' <= r[i] <= '9'
  {
    if n < 10 then [DigitChar(n)] else Digits(n / 10) + [DigitChar(n % 10)]
  }

  /** The number a string of decimal digits denotes. */
  function DigitsValue(s: string): int
  {
    if s == [] then 0 else 10 * DigitsValue(s[..|s| - 1]) + DigitValue(s[|s| - 1])
  }

  /** Python's str() of an int or a str. */
  function PyStr(v: Scalar): string
  {
    match v
    case StrValue(s) => s
    case IntValue(i) => if i < 0 then "-" + Digits(-i) else Digits(i)
  }

  /** Python's int() of a string that str() produced from an int. */
  function ParseInt(s: string): int
  {
    if s != [] && s[0] == '-' then -DigitsValue(s[1..]) else DigitsValue(s)
  }

  lemma {:induction false} DigitsRoundTrip(n: nat)
    ensures DigitsValue(Digits(n)) == n
  {
    var r := Digits(n);
    if n >= 10 {
      DigitsRoundTrip(n / 10);
      assert r[..|r| - 1] == Digits(n / 10);
      assert DigitValue(r[|r| - 1]) == n % 10;
    } else {
      assert r[..|r| - 1] == [];
    }
  }

  /** str() of an int can be read back, so distinct ints give distinct strings. */
  lemma IntStrRoundTrip(i: int)
    ensures ParseInt(PyStr(IntValue(i))) == i
  {
    if i < 0 {
      DigitsRoundTrip(-i);
      assert ("-" + Digits(-i))[1..] == Digits(-i);
    } else {
      DigitsRoundTrip(i);
    }
  }

  // ----- Dynamic evaluation of an expected transfer -----

  const AttributesToExtract: seq<string> := ["sender", "receiver", "token", "amount"]

  /** The attribute of the given name, as `getattr` reads it. */
  function Attribute(e: ExpectedTransfer, name: string): Scalar
    requires name in AttributesToExtract
  {
    if name == "sender" then StrValue(e.sender)
    else if name == "receiver" then StrValue(e.receiver)
    else if name == "token" then StrValue(e.token)
    else e.amount
  }

  /** One field resolved and turned back into a string. */
  function EvaluateField(v: Scalar, retrieve: Retriever): Result<string, Error>
  {
    var extracted :- retrieve(PyStr(v));
    Ok(PyStr(extracted))
  }

  /** The expected transfer with every field resolved and stringified, one field
      after the other; the first retrieval that raises ends the evaluation. */
  function DynamicEvaluated(e: ExpectedTransfer, retrieve: Retriever): Result<ExpectedTransfer, Error>
  {
    var sender :- EvaluateField(StrValue(e.sender), retrieve);
    var receiver :- EvaluateField(StrValue(e.receiver), retrieve);
    var token :- EvaluateField(StrValue(e.token), retrieve);
    var amount :- EvaluateField(e.amount, retrieve);
    Ok(ExpectedTransfer(sender, receiver, token, StrValue(amount)))
  }

  /** When the attributes before the i-th all resolve and the i-th raises, the
      evaluation raises that exception. */
  lemma FirstFailingAttribute(e: ExpectedTransfer, retrieve: Retriever, i: nat)
    requires i < |AttributesToExtract|
    requires forall j :: 0 <= j < i ==> EvaluateField(Attribute(e, AttributesToExtract[j]), retrieve).Ok?
    requires retrieve(PyStr(Attribute(e, AttributesToExtract[i]))).Err?
    ensures DynamicEvaluated(e, retrieve) == Err(retrieve(PyStr(Attribute(e, AttributesToExtract[i]))).error)
  {
    var names := AttributesToExtract;
    assert names[0] == "sender" && names[1] == "receiver" && names[2] == "token" && names[3] == "amount";
    if i > 0 { assert EvaluateField(Attribute(e, names[0]), retrieve).Ok?; }
    if i > 1 { assert EvaluateField(Attribute(e, names[1]), retrieve).Ok?; }
    if i > 2 { assert EvaluateField(Attribute(e, names[2]), retrieve).Ok?; }
  }

  /** Fills a dictionary of evaluations attribute by attribute, then builds the
      evaluated transfer from it. */
  method GetDynamicEvaluated(e: ExpectedTransfer, retrieve: Retriever) returns (r: Result<ExpectedTransfer, Error>)
    ensures r == DynamicEvaluated(e, retrieve)
  {
    var evaluations: map<string, string> := map[];
    var i := 0;
    while i < |AttributesToExtract|
      invariant 0 <= i <= |AttributesToExtract|
      invariant forall j :: 0 <= j < i ==> AttributesToExtract[j] in evaluations
      invariant forall j :: 0 <= j < i ==>
        EvaluateField(Attribute(e, AttributesToExtract[j]), retrieve) == Ok(evaluations[AttributesToExtract[j]])
    {
      var name := AttributesToExtract[i];
      var extracted := retrieve(PyStr(Attribute(e, name)));
      if extracted.Err? {
        FirstFailingAttribute(e, retrieve, i);
        return Err(extracted.error);
      }
      evaluations := evaluations[name := PyStr(extracted.value)];
      i := i + 1;
    }
    var names := AttributesToExtract;
    assert names[0] == "sender" && names[1] == "receiver" && names[2] == "token" && names[3] == "amount";
    assert EvaluateField(StrValue(e.sender), retrieve) == Ok(evaluations["sender"]);
    assert EvaluateField(StrValue(e.receiver), retrieve) == Ok(evaluations["receiver"]);
    assert EvaluateField(StrValue(e.token), retrieve) == Ok(evaluations["token"]);
    assert EvaluateField(e.amount, retrieve) == Ok(evaluations["amount"]);
    r := Ok(ExpectedTransfer(evaluations["sender"], evaluations["receiver"], evaluations["token"],
                             StrValue(evaluations["amount"])));
  }

  // ----- Equality -----

  /** `OnChainTransfer.__eq__`: an expected transfer on the other side decides the
      comparison; another on-chain transfer is compared field by field. */
  function OnChainEquals(self: OnChainTransfer, other: Object, retrieve: Retriever): Result<bool, Error>
  {
    match other
    case Expected(e) => ExpectedEquals(e, OnChain(self), retrieve)
    case OnChain(o) => Ok((self.sender, self.receiver, self.token, self.amount) == (o.sender, o.receiver, o.token, o.amount))
    case Other => Err(NotImplementedError)
  }

  /** `ExpectedTransfer.__eq__`: this side is always evaluated first; an expected
      transfer on the other side is evaluated too, an on-chain one is taken as it is. */
  function ExpectedEquals(self: ExpectedTransfer, other: Object, retrieve: Retriever): Result<bool, Error>
  {
    var evaluatedSelf :- DynamicEvaluated(self, retrieve);
    var evaluatedOther :- match other
      case OnChain(o) => Ok((o.sender, o.receiver, o.token, StrValue(o.amount)))
      case Expected(e) =>
        (var x :- DynamicEvaluated(e, retrieve); Ok((x.sender, x.receiver, x.token, x.amount)))
      case Other => Err(NotImplementedError);
    Ok((evaluatedSelf.sender, evaluatedSelf.receiver, evaluatedSelf.token, evaluatedSelf.amount) == evaluatedOther)
  }

  // ----- Properties -----

  /** An ESDT transfer built without a nonce has nonce 0. */
  lemma EsdtTransferDefaultNonce(tokenIdentifier: string, amount: int)
    ensures EsdtTransfer(tokenIdentifier, amount).nonce == 0
    ensures EsdtTransfer(tokenIdentifier, amount) == EsdtTransfer(tokenIdentifier, amount, 0)
  {
  }

  /** The evaluation succeeds exactly when all four retrievals do; every field of
      the result is the stringified resolution of the stringified original field,
      so an int amount becomes a string. */
  lemma DynamicEvaluatedFields(e: ExpectedTransfer, retrieve: Retriever)
    ensures DynamicEvaluated(e, retrieve).Ok? <==>
      && retrieve(e.sender).Ok? && retrieve(e.receiver).Ok? && retrieve(e.token).Ok?
      && retrieve(PyStr(e.amount)).Ok?
    ensures DynamicEvaluated(e, retrieve).Ok? ==>
      var x := DynamicEvaluated(e, retrieve).value;
      && x.sender == PyStr(retrieve(e.sender).value)
      && x.receiver == PyStr(retrieve(e.receiver).value)
      && x.token == PyStr(retrieve(e.token).value)
      && x.amount == StrValue(PyStr(retrieve(PyStr(e.amount)).value))
  {
  }

  /** The evaluation reads the retrieval only at the four stringified fields. */
  lemma DynamicEvaluatedReadsOnlyFields(e: ExpectedTransfer, r1: Retriever, r2: Retriever)
    requires r1(e.sender) == r2(e.sender) && r1(e.receiver) == r2(e.receiver) && r1(e.token) == r2(e.token)
    requires r1(PyStr(e.amount)) == r2(PyStr(e.amount))
    ensures DynamicEvaluated(e, r1) == DynamicEvaluated(e, r2)
  {
  }

  /** Two on-chain transfers are equal exactly when their four fields are. */
  lemma OnChainEqualsOnChain(a: OnChainTransfer, b: OnChainTransfer, retrieve: Retriever)
    ensures OnChainEquals(a, OnChain(b), retrieve) == Ok(a == b)
  {
  }

  /** Comparing an on-chain transfer with an expected one gives what comparing the
      expected one with the on-chain one gives. */
  lemma OnChainDelegatesToExpected(o: OnChainTransfer, e: ExpectedTransfer, retrieve: Retriever)
    ensures OnChainEquals(o, Expected(e), retrieve) == ExpectedEquals(e, OnChain(o), retrieve)
  {
  }

  /** Comparing either transfer with anything else never yields a boolean: it raises
      NotImplementedError, unless evaluating the expected side raised first. */
  lemma OtherTypesRaise(o: OnChainTransfer, e: ExpectedTransfer, retrieve: Retriever)
    ensures OnChainEquals(o, Other, retrieve) == Err(NotImplementedError)
    ensures ExpectedEquals(e, Other, retrieve).Err?
    ensures DynamicEvaluated(e, retrieve).Ok? ==> ExpectedEquals(e, Other, retrieve) == Err(NotImplementedError)
    ensures DynamicEvaluated(e, retrieve).Err? ==> ExpectedEquals(e, Other, retrieve) == Err(DynamicEvaluated(e, retrieve).error)
  {
  }

  /** Against an on-chain transfer only the expected side is evaluated: the result
      is the comparison of the evaluated fields with the raw on-chain fields, and
      does not depend on what the retrieval does with the on-chain strings. */
  lemma ExpectedAgainstOnChain(e: ExpectedTransfer, o: OnChainTransfer, retrieve: Retriever, other: Retriever)
    requires other(e.sender) == retrieve(e.sender) && other(e.receiver) == retrieve(e.receiver)
    requires other(e.token) == retrieve(e.token) && other(PyStr(e.amount)) == retrieve(PyStr(e.amount))
    ensures ExpectedEquals(e, OnChain(o), retrieve) == ExpectedEquals(e, OnChain(o), other)
    ensures DynamicEvaluated(e, retrieve).Ok? ==>
      ExpectedEquals(e, OnChain(o), retrieve)
      == Ok(DynamicEvaluated(e, retrieve).value == ExpectedTransfer(o.sender, o.receiver, o.token, StrValue(o.amount)))
    ensures DynamicEvaluated(e, retrieve).Err? ==>
      ExpectedEquals(e, OnChain(o), retrieve) == Err(DynamicEvaluated(e, retrieve).error)
  {
    DynamicEvaluatedReadsOnlyFields(e, retrieve, other);
  }

  /** Two expected transfers are compared by their evaluations: an expected
      transfer whose evaluation succeeds equals itself, and the comparison is
      symmetric unless both evaluations raise (each side then raises its own). */
  lemma ExpectedAgainstExpected(a: ExpectedTransfer, b: ExpectedTransfer, retrieve: Retriever)
    ensures DynamicEvaluated(a, retrieve).Ok? && DynamicEvaluated(b, retrieve).Ok? ==>
      ExpectedEquals(a, Expected(b), retrieve) == Ok(DynamicEvaluated(a, retrieve) == DynamicEvaluated(b, retrieve))
    ensures DynamicEvaluated(a, retrieve).Ok? || DynamicEvaluated(b, retrieve).Ok? ==>
      ExpectedEquals(a, Expected(b), retrieve) == ExpectedEquals(b, Expected(a), retrieve)
    ensures DynamicEvaluated(a, retrieve).Ok? ==> ExpectedEquals(a, Expected(a), retrieve) == Ok(true)
    ensures DynamicEvaluated(a, retrieve).Err? ==> ExpectedEquals(a, Expected(b), retrieve) == Err(DynamicEvaluated(a, retrieve).error)
  {
  }

  /** Two expected transfers that both match one on-chain transfer match each other. */
  lemma MatchingTheSameOnChainTransfer(a: ExpectedTransfer, b: ExpectedTransfer, o: OnChainTransfer, retrieve: Retriever)
    requires ExpectedEquals(a, OnChain(o), retrieve) == Ok(true)
    requires ExpectedEquals(b, OnChain(o), retrieve) == Ok(true)
    ensures ExpectedEquals(a, Expected(b), retrieve) == Ok(true)
  {
  }

  /** An int amount that resolves to an int compares as that int's decimal string,
      and distinct ints never compare equal. */
  lemma IntAmountComparedAsString(e: ExpectedTransfer, o: OnChainTransfer, retrieve: Retriever, n: int)
    requires DynamicEvaluated(e, retrieve).Ok?
    requires retrieve(PyStr(e.amount)) == Ok(IntValue(n))
    ensures DynamicEvaluated(e, retrieve).value.amount == StrValue(PyStr(IntValue(n)))
    ensures ExpectedEquals(e, OnChain(o), retrieve) == Ok(true) ==> ParseInt(o.amount) == n
  {
    DynamicEvaluatedFields(e, retrieve);
    IntStrRoundTrip(n);
  }
}

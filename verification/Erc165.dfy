/** ERC-165 interface detection (nodes-common/src/web3/erc165.rs): the interface identifier and the
    three checks that ask a contract about it. */
module Erc165 {
  import opened Wrappers

  /** A four-byte selector or identifier. */
  datatype Bytes4 = Bytes4(b0: bv8, b1: bv8, b2: bv8, b3: bv8) {
    function At(i: nat): bv8
      requires i < 4
    {
      if i == 0 then b0 else if i == 1 then b1 else if i == 2 then b2 else b3
    }

    function Xor(that: Bytes4): Bytes4 {
      Bytes4(b0 ^ that.b0, b1 ^ that.b1, b2 ^ that.b2, b3 ^ that.b3)
    }
  }

  const ZERO := Bytes4(0, 0, 0, 0)
  const SUPPORTS_INTERFACE_SELECTOR := Bytes4(0x01, 0xff, 0xc9, 0xa7)
  const INVALID_INTERFACE_SELECTOR := Bytes4(0xff, 0xff, 0xff, 0xff)

  lemma XorAssociative(a: Bytes4, b: Bytes4, c: Bytes4)
    ensures a.Xor(b).Xor(c) == a.Xor(b.Xor(c))
  {
  }

  lemma XorCommutative(a: Bytes4, b: Bytes4)
    ensures a.Xor(b) == b.Xor(a)
  {
  }

  lemma XorZero(a: Bytes4)
    ensures a.Xor(ZERO) == a
  {
  }

  lemma XorSelf(a: Bytes4)
    ensures a.Xor(a) == ZERO
  {
  }

  lemma XorCancels(a: Bytes4, b: Bytes4)
    ensures a.Xor(b) == a <==> b == ZERO
    ensures a.Xor(b) == ZERO <==> a == b
  {
    calc {
      a.Xor(a.Xor(b));
      { XorAssociative(a, a, b); }
      a.Xor(a).Xor(b);
      { XorSelf(a); XorCommutative(ZERO, b); XorZero(b); }
      b;
    }
    XorZero(a);
    XorSelf(a);
  }

  /** The identifier ERC-165 gives to an interface: the XOR of the selectors of its functions. */
  function InterfaceId(selectors: seq<Bytes4>): Bytes4 {
    if selectors == [] then ZERO
    else InterfaceId(selectors[..|selectors| - 1]).Xor(selectors[|selectors| - 1])
  }

  /** The accumulator is updated in place, byte by byte. */
  method InterfaceSelector(selectors: seq<Bytes4>) returns (id: Bytes4)
    ensures id == InterfaceId(selectors)
  {
    var acc := new bv8[4](_ => 0);
    for i := 0 to |selectors|
      invariant Read(acc) == InterfaceId(selectors[..i])
    {
      ghost var before := Read(acc);
      for j := 0 to 4
        invariant forall k :: 0 <= k < j ==> acc[k] == before.At(k) ^ selectors[i].At(k)
        invariant forall k :: j <= k < 4 ==> acc[k] == before.At(k)
      {
        acc[j] := acc[j] ^ selectors[i].At(j);
      }
      assert Read(acc) == before.Xor(selectors[i]);
      assert selectors[..i + 1][..i] == selectors[..i];
    }
    assert selectors[..|selectors|] == selectors;
    id := Read(acc);
  }

  function Read(acc: array<bv8>): Bytes4
    requires acc.Length == 4
    reads acc
  {
    Bytes4(acc[0], acc[1], acc[2], acc[3])
  }

  lemma {:induction false} ConcatIsXor(s: seq<Bytes4>, t: seq<Bytes4>)
    ensures InterfaceId(s + t) == InterfaceId(s).Xor(InterfaceId(t))
    decreases |t|
  {
    if t == [] {
      assert s + t == s;
      XorZero(InterfaceId(s));
    } else {
      var t' := t[..|t| - 1];
      assert (s + t)[..|s + t| - 1] == s + t';
      ConcatIsXor(s, t');
      XorAssociative(InterfaceId(s), InterfaceId(t'), t[|t| - 1]);
    }
  }

  /** An interface of one function is identified by its selector. */
  lemma SingletonId(x: Bytes4)
    ensures InterfaceId([x]) == x
  {
    assert [x][..0] == [];
    XorCommutative(ZERO, x);
    XorZero(x);
  }

  /** The list without its element at `p`. */
  function Removed(s: seq<Bytes4>, p: nat): seq<Bytes4>
    requires p < |s|
  {
    s[..p] + s[p + 1..]
  }

  lemma RemovedCounts(s: seq<Bytes4>, p: nat, y: Bytes4)
    requires p < |s|
    ensures multiset(s)[y] == multiset(Removed(s, p))[y] + if y == s[p] then 1 else 0
  {
    assert s == s[..p] + [s[p]] + s[p + 1..];
  }

  lemma SwapLast(x: Bytes4, y: Bytes4, z: Bytes4)
    ensures x.Xor(y).Xor(z) == x.Xor(z).Xor(y)
  {
  }

  /** A selector may be taken out wherever it stands. */
  lemma Extract(s: seq<Bytes4>, p: nat)
    requires p < |s|
    ensures InterfaceId(s) == InterfaceId(Removed(s, p)).Xor(s[p])
  {
    var a, b := s[..p], s[p + 1..];
    var upTo := s[..p + 1];
    assert s == upTo + b && upTo[..p] == a;
    ConcatIsXor(upTo, b);
    ConcatIsXor(a, b);
    SwapLast(InterfaceId(a), s[p], InterfaceId(b));
  }

  /** Every selector occurs an even number of times. */
  ghost predicate AllEven(s: seq<Bytes4>) {
    forall x :: multiset(s)[x] % 2 == 0
  }

  lemma {:induction false} EvenSelectorsCancel(s: seq<Bytes4>)
    requires AllEven(s)
    ensures InterfaceId(s) == ZERO
    decreases |s|
  {
    if s != [] {
      var last := |s| - 1;
      var x, rest := s[last], s[..last];
      var p := Twin(s);
      Extract(rest, p);
      var rest' := Removed(rest, p);
      EvenWithoutPair(s, p);
      EvenSelectorsCancel(rest');
      XorCommutative(ZERO, x);
      XorZero(x);
      XorSelf(x);
    }
  }

  lemma LastCounts(s: seq<Bytes4>, y: Bytes4)
    requires s != []
    ensures var last := |s| - 1;
            multiset(s)[y] == multiset(s[..last])[y] + if y == s[last] then 1 else 0
  {
    var last := |s| - 1;
    assert s == s[..last] + [s[last]];
  }

  /** The last selector of an all-even list occurs before. */
  lemma Twin(s: seq<Bytes4>) returns (p: nat)
    requires AllEven(s) && s != []
    ensures p < |s| - 1 && s[p] == s[|s| - 1]
  {
    var last := |s| - 1;
    var x, rest := s[last], s[..last];
    LastCounts(s, x);
    assert multiset(s)[x] % 2 == 0;
    assert x in multiset(rest);
    p :| 0 <= p < |rest| && rest[p] == x;
  }

  lemma EvenWithoutPair(s: seq<Bytes4>, p: nat)
    requires AllEven(s) && p < |s| - 1 && s[p] == s[|s| - 1]
    ensures AllEven(Removed(s[..|s| - 1], p))
  {
    var rest := s[..|s| - 1];
    forall y
      ensures multiset(Removed(rest, p))[y] % 2 == 0
    {
      assert multiset(s)[y] % 2 == 0;
      LastCounts(s, y);
      RemovedCounts(rest, p, y);
    }
  }

  /** Only the parity of each selector's number of occurrences matters. */
  ghost predicate SameParity(s: seq<Bytes4>, t: seq<Bytes4>) {
    forall x :: multiset(s)[x] % 2 == multiset(t)[x] % 2
  }

  lemma ParityDeterminesId(s: seq<Bytes4>, t: seq<Bytes4>)
    requires SameParity(s, t)
    ensures InterfaceId(s) == InterfaceId(t)
  {
    forall x
      ensures multiset(s + t)[x] % 2 == 0
    {
      assert multiset(s)[x] % 2 == multiset(t)[x] % 2;
      assert multiset(s + t)[x] == multiset(s)[x] + multiset(t)[x];
    }
    EvenSelectorsCancel(s + t);
    ConcatIsXor(s, t);
    XorCancels(InterfaceId(s), InterfaceId(t));
  }

  /** The order of the selectors does not matter. */
  lemma OrderIsIrrelevant(s: seq<Bytes4>, t: seq<Bytes4>)
    requires multiset(s) == multiset(t)
    ensures InterfaceId(s) == InterfaceId(t)
  {
    ParityDeterminesId(s, t);
  }

  /** The selectors that occur an odd number of times, each once. */
  function OddOnes(s: seq<Bytes4>): seq<Bytes4> {
    if s == [] then [] else Toggle(OddOnes(s[..|s| - 1]), s[|s| - 1])
  }

  function Toggle(odd: seq<Bytes4>, x: Bytes4): seq<Bytes4> {
    if x in odd then Without(odd, x) else odd + [x]
  }

  function Without(s: seq<Bytes4>, x: Bytes4): (rest: seq<Bytes4>) {
    if s == [] then [] else if s[0] == x then s[1..] else [s[0]] + Without(s[1..], x)
  }

  lemma {:induction false} WithoutCounts(s: seq<Bytes4>, x: Bytes4)
    requires x in s
    ensures multiset(s) == multiset(Without(s, x)) + multiset{x}
  {
    assert s == [s[0]] + s[1..];
    if s[0] != x {
      WithoutCounts(s[1..], x);
    }
  }

  lemma ToggleCounts(odd: seq<Bytes4>, x: Bytes4, y: Bytes4)
    requires multiset(odd)[x] <= 1
    ensures multiset(Toggle(odd, x))[y] == if y == x then 1 - multiset(odd)[y] else multiset(odd)[y]
  {
    if x in odd {
      WithoutCounts(odd, x);
      assert x in multiset(odd);
    } else {
      assert x !in multiset(odd);
    }
  }

  lemma {:induction false} OddOnesCounts(s: seq<Bytes4>, y: Bytes4)
    ensures multiset(OddOnes(s))[y] == multiset(s)[y] % 2
  {
    if s != [] {
      var last := |s| - 1;
      var rest, x := s[..last], s[last];
      OddOnesCounts(rest, y);
      OddOnesCounts(rest, x);
      ToggleCounts(OddOnes(rest), x, y);
      LastCounts(s, y);
      OneMoreFlipsParity(multiset(rest)[y]);
    }
  }

  lemma OneMoreFlipsParity(n: nat)
    ensures (n + 1) % 2 == 1 - n % 2
  {
  }

  /** The identifier is the XOR of exactly the selectors that occur an odd number of times. */
  lemma IdIsXorOfOddOnes(s: seq<Bytes4>)
    ensures InterfaceId(s) == InterfaceId(OddOnes(s))
    ensures forall x :: multiset(OddOnes(s))[x] == multiset(s)[x] % 2
  {
    forall x
      ensures multiset(OddOnes(s))[x] == multiset(s)[x] % 2
    {
      OddOnesCounts(s, x);
    }
    ParityDeterminesId(s, OddOnes(s));
  }

  /** Repeating a selector changes the identifier unless the selector is zero. */
  lemma RepeatingChangesId(s: seq<Bytes4>, x: Bytes4)
    ensures InterfaceId(s + [x]) == InterfaceId(s) <==> x == ZERO
  {
    assert (s + [x])[..|s|] == s;
    XorCancels(InterfaceId(s), x);
  }

  /** What a `supportsInterface` call to an address does. `Empty` is a call that returns no data: there
      is no code, or the code returns nothing. `Malformed` data does not decode to a bool. */
  datatype Answer = Says(supported: bool) | Empty | Malformed | Reverts

  /** A deterministic contract: the answer depends on the identifier alone. */
  type Contract = Bytes4 -> Answer

  /** The state of the node: `Up` tells whether Multicall3 is deployed at its canonical address;
      `Refusing` answers every request with a JSON-RPC error; `Down` cannot be reached. */
  datatype Node = Up(multicall3: bool) | Refusing | Down

  datatype RpcError = Transport | ErrorReply

  datatype ContractError = ZeroData | CallTransport(rpc: RpcError) | OtherContractError

  datatype MulticallError =
    | NoReturnData
    | DecodeError
    | ValueTx
    | CallFailed
    | MulticallTransport(rpc: RpcError)

  datatype ConfirmError = NotAContract | Unsupported | TransportError

  type Confirmation = Result<(), ConfirmError>

  /** One `eth_call` to the address; a revert comes back as a JSON-RPC error. */
  function DirectCall(node: Node, answer: Answer): Result<bool, ContractError> {
    match node
    case Down => Err(CallTransport(Transport))
    case Refusing => Err(CallTransport(ErrorReply))
    case Up(_) =>
      match answer
      case Says(b) => Ok(b)
      case Empty => Err(ZeroData)
      case Malformed => Err(OtherContractError)
      case Reverts => Err(CallTransport(ErrorReply))
  }

  /** The batched call: Multicall3 reverts as a whole when one of its calls does, and the results are
      decoded together. */
  function Aggregate(node: Node, answers: seq<Answer>): (r: Result<seq<bool>, MulticallError>)
    ensures r.Ok? ==> |r.value| == |answers|
    ensures r.Ok? <==> node == Up(true) && forall a :: a in answers ==> a.Says?
    ensures r.Ok? ==> forall i :: 0 <= i < |answers| ==> answers[i] == Says(r.value[i])
  {
    match node
    case Down => Err(MulticallTransport(Transport))
    case Refusing => Err(MulticallTransport(ErrorReply))
    case Up(multicall3) =>
      if !multicall3 then Err(NoReturnData)
      else if Reverts in answers then Err(MulticallTransport(ErrorReply))
      else if Empty in answers || Malformed in answers then Err(DecodeError)
      else
        assert forall i :: 0 <= i < |answers| ==> answers[i] in answers;
        Ok(seq(|answers|, i requires 0 <= i < |answers| => answers[i].supported))
  }

  function UnwrapCall(call: Result<bool, ContractError>): Confirmation {
    match call
    case Ok(true) => Ok(())
    case Err(ZeroData) => Err(NotAContract)
    case Err(CallTransport(Transport)) => Err(TransportError)
    case Ok(false) => Err(Unsupported)
    case Err(_) => Err(Unsupported)
  }

  function FromMulticall(e: MulticallError): ConfirmError {
    match e
    case NoReturnData => NotAContract
    case DecodeError => NotAContract
    case MulticallTransport(Transport) => TransportError
    case ValueTx => Unsupported
    case CallFailed => Unsupported
    case MulticallTransport(_) => Unsupported
  }

  function Conformance(contract: Contract): seq<Answer> {
    [contract(SUPPORTS_INTERFACE_SELECTOR), contract(INVALID_INTERFACE_SELECTOR)]
  }

  function EnsureConform(node: Node, contract: Contract): Confirmation {
    match Aggregate(node, Conformance(contract))
    case Err(e) => Err(FromMulticall(e))
    case Ok(bs) => if bs[0] && !bs[1] then Ok(()) else Err(Unsupported)
  }

  function SupportsUnchecked(node: Node, contract: Contract, selectors: seq<Bytes4>): Confirmation {
    UnwrapCall(DirectCall(node, contract(InterfaceId(selectors))))
  }

  function Asked(contract: Contract, selectors: seq<Bytes4>): seq<Answer> {
    [contract(InterfaceId(selectors)), contract(SUPPORTS_INTERFACE_SELECTOR), contract(INVALID_INTERFACE_SELECTOR)]
  }

  function Supports(node: Node, contract: Contract, selectors: seq<Bytes4>): Confirmation {
    match Aggregate(node, Asked(contract, selectors))
    case Err(e) => Err(FromMulticall(e))
    case Ok(bs) => if bs[0] && bs[1] && !bs[2] then Ok(()) else Err(Unsupported)
  }

  /** The full check succeeds exactly when the conformance check and the unchecked query both do, for
      every contract and every state of the node. */
  lemma CheckedIsConformAndUnchecked(node: Node, contract: Contract, selectors: seq<Bytes4>)
    ensures Supports(node, contract, selectors).Ok? <==>
            EnsureConform(node, contract).Ok? && SupportsUnchecked(node, contract, selectors).Ok?
  {
    var a := contract(InterfaceId(selectors));
    var b, c := contract(SUPPORTS_INTERFACE_SELECTOR), contract(INVALID_INTERFACE_SELECTOR);
    assert a in [a, b, c] && b in [a, b, c] && c in [a, b, c];
    assert b in [b, c] && c in [b, c];
  }

  /** A contract conforms when it is asked about ERC-165 itself, says yes, and denies the invalid
      interface. */
  lemma ConformIff(node: Node, contract: Contract)
    ensures EnsureConform(node, contract).Ok? <==>
            && node == Up(true)
            && contract(Bytes4(0x01, 0xff, 0xc9, 0xa7)) == Says(true)
            && contract(Bytes4(0xff, 0xff, 0xff, 0xff)) == Says(false)
  {
    var b, c := contract(SUPPORTS_INTERFACE_SELECTOR), contract(INVALID_INTERFACE_SELECTOR);
    assert b in [b, c] && c in [b, c];
  }

  /** Whatever the contract claims, no list of selectors that makes the invalid identifier passes the
      full check, in any order and with any repetitions; a contract can make it pass the unchecked
      query. */
  lemma InvalidInterfaceNeverSupported(node: Node, contract: Contract, selectors: seq<Bytes4>)
    requires InterfaceId(selectors) == INVALID_INTERFACE_SELECTOR
    ensures Supports(node, contract, selectors).Err?
    ensures SupportsUnchecked(Up(true), _ => Says(true), selectors).Ok?
  {
    CheckedIsConformAndUnchecked(node, contract, selectors);
    ConformIff(node, contract);
  }

  /** How a batched check fails: it blames the transport exactly when the node cannot be reached, and
      reports a missing contract exactly when Multicall3 is missing or every call went through but
      some data does not decode. */
  predicate BlamesRightly(r: Confirmation, node: Node, asked: seq<Answer>) {
    && (r == Err(TransportError) <==> node == Down)
    && (r == Err(NotAContract) <==>
        || node == Up(false)
        || (node == Up(true) && Reverts !in asked && (Empty in asked || Malformed in asked)))
  }

  lemma BatchedErrors(node: Node, contract: Contract, selectors: seq<Bytes4>)
    ensures BlamesRightly(Supports(node, contract, selectors), node, Asked(contract, selectors))
    ensures BlamesRightly(EnsureConform(node, contract), node, Conformance(contract))
  {
    assert Aggregate(node, Asked(contract, selectors)).Ok? ==> node == Up(true);
    assert Aggregate(node, Conformance(contract)).Ok? ==> node == Up(true);
  }

  /** What the unchecked query reports, for every node and contract: an outage is never taken for the
      contract's refusal. */
  lemma UncheckedOutcomes(node: Node, contract: Contract, selectors: seq<Bytes4>)
    ensures var r, answer := SupportsUnchecked(node, contract, selectors), contract(InterfaceId(selectors));
      && (r.Ok? <==> node.Up? && answer == Says(true))
      && (r == Err(TransportError) <==> node == Down)
      && (r == Err(NotAContract) <==> node.Up? && answer == Empty)
      && (r == Err(Unsupported) <==>
          node == Refusing || (node.Up? && (answer == Says(false) || answer == Malformed || answer == Reverts)))
  {
  }

  /** The two error mappings on every error of the library: a lost connection is passed on, missing data
      means a missing contract, and everything else means no support. */
  lemma ErrorMappings(call: Result<bool, ContractError>, e: MulticallError)
    ensures UnwrapCall(call).Ok? <==> call == Ok(true)
    ensures UnwrapCall(call) == Err(NotAContract) <==> call == Err(ZeroData)
    ensures UnwrapCall(call) == Err(TransportError) <==> call == Err(CallTransport(Transport))
    ensures FromMulticall(e) == NotAContract <==> e in {NoReturnData, DecodeError}
    ensures FromMulticall(e) == TransportError <==> e == MulticallTransport(Transport)
  {
  }

  /** The unchecked query names a missing contract exactly when the call returned nothing. An address
      without code is named by all three checks. */
  lemma NoCodeIsReported(contract: Contract, selectors: seq<Bytes4>)
    ensures SupportsUnchecked(Up(true), contract, selectors) == Err(NotAContract) <==>
            contract(InterfaceId(selectors)) == Empty
    ensures (forall id :: contract(id) == Empty) ==>
              && Supports(Up(true), contract, selectors) == Err(NotAContract)
              && EnsureConform(Up(true), contract) == Err(NotAContract)
  {
    if forall id :: contract(id) == Empty {
      var asked, pair := Asked(contract, selectors), Conformance(contract);
      assert asked[0] in asked && forall a :: a in asked ==> a == Empty;
      assert pair[0] in pair && forall a :: a in pair ==> a == Empty;
    }
  }

  /** The converse fails for the batched checks: a deployed contract whose answers are data that is
      not a bool is reported as no contract by them, and as unsupported by the unchecked query. */
  lemma DeployedContractCalledMissing(selectors: seq<Bytes4>)
    ensures Supports(Up(true), _ => Malformed, selectors) == Err(NotAContract)
    ensures EnsureConform(Up(true), _ => Malformed) == Err(NotAContract)
    ensures SupportsUnchecked(Up(true), _ => Malformed, selectors) == Err(Unsupported)
  {
    var asked, pair := Asked(_ => Malformed, selectors), Conformance(_ => Malformed);
    assert asked[0] in asked && forall a :: a in asked ==> a == Malformed;
    assert pair[0] in pair && forall a :: a in pair ==> a == Malformed;
  }
}

/** Decoding of QuickSwap (Uniswap-V2 style) router calls found in the mempool
    into typed swap intents.  Calldata is a 4-byte function selector followed
    by the Solidity-ABI encoding of the arguments; turning those argument bytes
    into ABI tokens is the job of the ABI library and enters the model as an
    `InputDecoder` supplied by the caller. */
module QuickSwap {
  import opened Wrappers
  import opened Eth

  /** QUICKSWAP_ROUTER_ADDR on Polygon. */
  const QUICKSWAP_ROUTER: Address := 0xa5E0829CaCEd8fFDD4De3c43696c57F7D7A678ff

  /** The nine router entry points of the minimal router ABI, named as in Solidity. */
  datatype SwapFn =
    | swapETHForExactTokens
    | swapExactETHForTokens
    | swapExactETHForTokensSupportingFeeOnTransferTokens
    | swapExactTokensForETH
    | swapExactTokensForETHSupportingFeeOnTransferTokens
    | swapExactTokensForTokens
    | swapExactTokensForTokensSupportingFeeOnTransferTokens
    | swapTokensForExactETH
    | swapTokensForExactTokens

  /** The functions of the parsed router ABI in the order the ABI library lists
      them (it keys them by name). */
  const RouterAbi: seq<SwapFn> := [
    swapETHForExactTokens,
    swapExactETHForTokens,
    swapExactETHForTokensSupportingFeeOnTransferTokens,
    swapExactTokensForETH,
    swapExactTokensForETHSupportingFeeOnTransferTokens,
    swapExactTokensForTokens,
    swapExactTokensForTokensSupportingFeeOnTransferTokens,
    swapTokensForExactETH,
    swapTokensForExactTokens
  ]

  /** The 4-byte selector of each signature: the first four bytes of the
      Keccak-256 hash of its canonical signature, e.g.
      `swapExactTokensForTokens(uint256,uint256,address[],address,uint256)`. */
  function Selector(f: SwapFn): seq<byte> {
    match f
    case swapETHForExactTokens => [0xfb, 0x3b, 0xdb, 0x41]
    case swapExactETHForTokens => [0x7f, 0xf3, 0x6a, 0xb5]
    case swapExactETHForTokensSupportingFeeOnTransferTokens => [0xb6, 0xf9, 0xde, 0x95]
    case swapExactTokensForETH => [0x18, 0xcb, 0xaf, 0xe5]
    case swapExactTokensForETHSupportingFeeOnTransferTokens => [0x79, 0x1a, 0xc9, 0x47]
    case swapExactTokensForTokens => [0x38, 0xed, 0x17, 0x39]
    case swapExactTokensForTokensSupportingFeeOnTransferTokens => [0x5c, 0x11, 0xd7, 0x95]
    case swapTokensForExactETH => [0x4a, 0x25, 0xd9, 0x4a]
    case swapTokensForExactTokens => [0x88, 0x03, 0xdb, 0xee]
  }

  /** The calls that spend the native asset: their input amount is `tx.value`
      and is not an ABI argument. */
  predicate NativeInput(f: SwapFn) {
    f.swapETHForExactTokens? || f.swapExactETHForTokens?
    || f.swapExactETHForTokensSupportingFeeOnTransferTokens?
  }

  /** Number of ABI arguments of each signature. */
  function Arity(f: SwapFn): nat {
    if NativeInput(f) then 4 else 5
  }

  /** ABI tokens as the ABI library produces them. */
  datatype Token =
    | Address(addr: Address)
    | FixedBytes(bytes: seq<byte>)
    | Bytes(bytes: seq<byte>)
    | Int(word: U256)
    | Uint(word: U256)
    | Bool(flag: bool)
    | String(text: string)
    | FixedArray(items: seq<Token>)
    | Array(items: seq<Token>)
    | Tuple(items: seq<Token>)

  /** The ABI library's `decode_input`: the argument bytes of a call to `f`
      decoded into tokens, or `None` when they do not decode. */
  type InputDecoder = (SwapFn, seq<byte>) -> Option<seq<Token>>

  /** The decoded swap intent, one variant per router entry point. */
  datatype QuickSwapAction =
    // exact-in: the input is fixed, the output at least amountOutMin
    | SwapExactTokensForTokens(amountIn: U256, amountOutMin: U256, path: seq<Address>, to: Address, deadline: U256)
    | SwapExactTokensForETH(amountIn: U256, amountOutMin: U256, path: seq<Address>, to: Address, deadline: U256)
    | SwapExactETHForTokens(amountIn: U256, amountOutMin: U256, path: seq<Address>, to: Address, deadline: U256)
    // exact-out: the output is fixed, the input at most amountInMax
    | SwapTokensForExactTokens(amountOut: U256, amountInMax: U256, path: seq<Address>, to: Address, deadline: U256)
    | SwapTokensForExactETH(amountOut: U256, amountInMax: U256, path: seq<Address>, to: Address, deadline: U256)
    | SwapETHForExactTokens(amountOut: U256, path: seq<Address>, to: Address, deadline: U256, amountInMax: U256)
    // fee-on-transfer variants, exact-in
    | SwapExactTokensForTokensSupportingFeeOnTransferTokens(amountIn: U256, amountOutMin: U256, path: seq<Address>, to: Address, deadline: U256)
    | SwapExactTokensForETHSupportingFeeOnTransferTokens(amountIn: U256, amountOutMin: U256, path: seq<Address>, to: Address, deadline: U256)
    | SwapExactETHForTokensSupportingFeeOnTransferTokens(amountIn: U256, amountOutMin: U256, path: seq<Address>, to: Address, deadline: U256)

  /** The router entry point an action stands for. */
  function ActionFn(a: QuickSwapAction): SwapFn {
    match a
    case SwapExactTokensForTokens(_, _, _, _, _) => swapExactTokensForTokens
    case SwapExactTokensForETH(_, _, _, _, _) => swapExactTokensForETH
    case SwapExactETHForTokens(_, _, _, _, _) => swapExactETHForTokens
    case SwapTokensForExactTokens(_, _, _, _, _) => swapTokensForExactTokens
    case SwapTokensForExactETH(_, _, _, _, _) => swapTokensForExactETH
    case SwapETHForExactTokens(_, _, _, _, _) => swapETHForExactTokens
    case SwapExactTokensForTokensSupportingFeeOnTransferTokens(_, _, _, _, _) =>
      swapExactTokensForTokensSupportingFeeOnTransferTokens
    case SwapExactTokensForETHSupportingFeeOnTransferTokens(_, _, _, _, _) =>
      swapExactTokensForETHSupportingFeeOnTransferTokens
    case SwapExactETHForTokensSupportingFeeOnTransferTokens(_, _, _, _, _) =>
      swapExactETHForTokensSupportingFeeOnTransferTokens
  }

  /** The amount a native-input action takes from `tx.value`. */
  function NativeAmount(a: QuickSwapAction): U256
    requires NativeInput(ActionFn(a))
  {
    if a.SwapETHForExactTokens? then a.amountInMax else a.amountIn
  }

  /** `get_path`: the hop path of any variant. */
  function GetPath(a: QuickSwapAction): (p: seq<Address>)
    ensures p == a.path
  {
    match a
    case SwapExactTokensForTokens(_, _, path, _, _) => path
    case SwapExactTokensForETH(_, _, path, _, _) => path
    case SwapExactETHForTokens(_, _, path, _, _) => path
    case SwapTokensForExactTokens(_, _, path, _, _) => path
    case SwapTokensForExactETH(_, _, path, _, _) => path
    case SwapETHForExactTokens(_, path, _, _, _) => path
    case SwapExactTokensForTokensSupportingFeeOnTransferTokens(_, _, path, _, _) => path
    case SwapExactTokensForETHSupportingFeeOnTransferTokens(_, _, path, _, _) => path
    case SwapExactETHForTokensSupportingFeeOnTransferTokens(_, _, path, _, _) => path
  }

  // ---- token helpers --------------------------------------------------------

  /** `to_u256`: the integer of a `Uint` token, nothing for any other token. */
  function ToU256(t: Token): (r: Option<U256>)
    ensures r.Some? <==> t.Uint?
    ensures r.Some? ==> t == Uint(r.value)
  {
    match t
    case Uint(u) => Some(u)
    case _ => None
  }

  /** `to_addr`: the address of an `Address` token, nothing for any other token. */
  function ToAddr(t: Token): (r: Option<Address>)
    ensures r.Some? <==> t.Address?
    ensures r.Some? ==> t == Address(r.value)
  {
    match t
    case Address(a) => Some(a)
    case _ => None
  }

  /** The `address[]` token holding exactly `p`. */
  function AddressArray(p: seq<Address>): Token {
    Array(seq(|p|, i requires 0 <= i < |p| => Address(p[i])))
  }

  predicate AllAddresses(items: seq<Token>) {
    forall i :: 0 <= i < |items| ==> items[i].Address?
  }

  /** What `to_addr_vec` computes: the addresses of an `Array` token whose
      elements are all `Address` tokens, else `None`. */
  function AddrVec(t: Token): Option<seq<Address>> {
    if t.Array? && AllAddresses(t.items)
    then Some(seq(|t.items|, i requires 0 <= i < |t.items| && AllAddresses(t.items) => t.items[i].addr))
    else None
  }

  /** `to_addr_vec`: walks the array, pushing each address and giving up at the
      first element that is not an address. */
  method ToAddrVec(t: Token) returns (r: Option<seq<Address>>)
    ensures r.Some? <==> t.Array? && AllAddresses(t.items)
    ensures r.Some? ==> AddressArray(r.value) == t
    ensures r == AddrVec(t)
  {
    if !t.Array? {
      return None;
    }
    var v := t.items;
    var out: seq<Address> := [];
    for i := 0 to |v|
      invariant |out| == i
      invariant forall j :: 0 <= j < i ==> v[j] == Address(out[j])
    {
      if v[i].Address? {
        out := out + [v[i].addr];
      } else {
        return None;
      }
    }
    assert AddressArray(out).items == v;
    assert AllAddresses(v);
    assert AddrVec(t).value == out;
    r := Some(out);
  }

  // ---- re-packing tokens into actions --------------------------------------

  /** The positional argument tokens of a call that this action decodes from:
      the inverse of `Repack`. */
  function ArgTokens(a: QuickSwapAction): seq<Token> {
    match a
    case SwapExactTokensForTokens(x, y, p, to, d) => [Uint(x), Uint(y), AddressArray(p), Address(to), Uint(d)]
    case SwapExactTokensForETH(x, y, p, to, d) => [Uint(x), Uint(y), AddressArray(p), Address(to), Uint(d)]
    case SwapExactETHForTokens(_, y, p, to, d) => [Uint(y), AddressArray(p), Address(to), Uint(d)]
    case SwapTokensForExactTokens(x, y, p, to, d) => [Uint(x), Uint(y), AddressArray(p), Address(to), Uint(d)]
    case SwapTokensForExactETH(x, y, p, to, d) => [Uint(x), Uint(y), AddressArray(p), Address(to), Uint(d)]
    case SwapETHForExactTokens(x, p, to, d, _) => [Uint(x), AddressArray(p), Address(to), Uint(d)]
    case SwapExactTokensForTokensSupportingFeeOnTransferTokens(x, y, p, to, d) =>
      [Uint(x), Uint(y), AddressArray(p), Address(to), Uint(d)]
    case SwapExactTokensForETHSupportingFeeOnTransferTokens(x, y, p, to, d) =>
      [Uint(x), Uint(y), AddressArray(p), Address(to), Uint(d)]
    case SwapExactETHForTokensSupportingFeeOnTransferTokens(_, y, p, to, d) =>
      [Uint(y), AddressArray(p), Address(to), Uint(d)]
  }

  /** The per-name arm of the decoder: check the token count against the
      signature, then convert the tokens positionally; any token of the wrong
      kind gives `None`.  Native-input calls take their input amount from
      `value` (the transaction's `value`). */
  function Repack(f: SwapFn, tokens: seq<Token>, value: U256): (r: Option<QuickSwapAction>)
    ensures |tokens| != Arity(f) ==> r.None?
  {
    match f
    case swapExactTokensForTokens =>
      if |tokens| != 5 then None else
      var amountIn :- ToU256(tokens[0]);
      var amountOutMin :- ToU256(tokens[1]);
      var path :- AddrVec(tokens[2]);
      var to :- ToAddr(tokens[3]);
      var deadline :- ToU256(tokens[4]);
      Some(SwapExactTokensForTokens(amountIn, amountOutMin, path, to, deadline))
    case swapExactTokensForETH =>
      if |tokens| != 5 then None else
      var amountIn :- ToU256(tokens[0]);
      var amountOutMin :- ToU256(tokens[1]);
      var path :- AddrVec(tokens[2]);
      var to :- ToAddr(tokens[3]);
      var deadline :- ToU256(tokens[4]);
      Some(SwapExactTokensForETH(amountIn, amountOutMin, path, to, deadline))
    case swapExactETHForTokens =>
      if |tokens| != 4 then None else
      var amountOutMin :- ToU256(tokens[0]);
      var path :- AddrVec(tokens[1]);
      var to :- ToAddr(tokens[2]);
      var deadline :- ToU256(tokens[3]);
      Some(SwapExactETHForTokens(value, amountOutMin, path, to, deadline))
    case swapTokensForExactTokens =>
      if |tokens| != 5 then None else
      var amountOut :- ToU256(tokens[0]);
      var amountInMax :- ToU256(tokens[1]);
      var path :- AddrVec(tokens[2]);
      var to :- ToAddr(tokens[3]);
      var deadline :- ToU256(tokens[4]);
      Some(SwapTokensForExactTokens(amountOut, amountInMax, path, to, deadline))
    case swapTokensForExactETH =>
      if |tokens| != 5 then None else
      var amountOut :- ToU256(tokens[0]);
      var amountInMax :- ToU256(tokens[1]);
      var path :- AddrVec(tokens[2]);
      var to :- ToAddr(tokens[3]);
      var deadline :- ToU256(tokens[4]);
      Some(SwapTokensForExactETH(amountOut, amountInMax, path, to, deadline))
    case swapETHForExactTokens =>
      if |tokens| != 4 then None else
      var amountOut :- ToU256(tokens[0]);
      var path :- AddrVec(tokens[1]);
      var to :- ToAddr(tokens[2]);
      var deadline :- ToU256(tokens[3]);
      Some(SwapETHForExactTokens(amountOut, path, to, deadline, value))
    case swapExactTokensForTokensSupportingFeeOnTransferTokens =>
      if |tokens| != 5 then None else
      var amountIn :- ToU256(tokens[0]);
      var amountOutMin :- ToU256(tokens[1]);
      var path :- AddrVec(tokens[2]);
      var to :- ToAddr(tokens[3]);
      var deadline :- ToU256(tokens[4]);
      Some(SwapExactTokensForTokensSupportingFeeOnTransferTokens(amountIn, amountOutMin, path, to, deadline))
    case swapExactTokensForETHSupportingFeeOnTransferTokens =>
      if |tokens| != 5 then None else
      var amountIn :- ToU256(tokens[0]);
      var amountOutMin :- ToU256(tokens[1]);
      var path :- AddrVec(tokens[2]);
      var to :- ToAddr(tokens[3]);
      var deadline :- ToU256(tokens[4]);
      Some(SwapExactTokensForETHSupportingFeeOnTransferTokens(amountIn, amountOutMin, path, to, deadline))
    case swapExactETHForTokensSupportingFeeOnTransferTokens =>
      if |tokens| != 4 then None else
      var amountOutMin :- ToU256(tokens[0]);
      var path :- AddrVec(tokens[1]);
      var to :- ToAddr(tokens[2]);
      var deadline :- ToU256(tokens[3]);
      Some(SwapExactETHForTokensSupportingFeeOnTransferTokens(value, amountOutMin, path, to, deadline))
  }

  lemma AddrVecOfAddressArray(p: seq<Address>)
    ensures AddrVec(AddressArray(p)) == Some(p)
  {
    var t := AddressArray(p);
    assert AllAddresses(t.items);
    assert AddrVec(t).value == p;
  }

  lemma AddressArrayOfAddrVec(t: Token)
    requires AddrVec(t).Some?
    ensures AddressArray(AddrVec(t).value) == t
  {
  }

  /** Round trip at the token level: the argument tokens of an action re-pack
      into that same action, provided the transaction value equals the amount
      a native-input call takes from it. */
  lemma RepackArgTokens(a: QuickSwapAction, value: U256)
    requires NativeInput(ActionFn(a)) ==> value == NativeAmount(a)
    ensures Repack(ActionFn(a), ArgTokens(a), value) == Some(a)
  {
    AddrVecOfAddressArray(a.path);
  }

  /** Converse: whatever `Repack` builds came from exactly its argument tokens,
      for the entry point it was matched on, and a native-input action carries
      the transaction value. */
  lemma RepackInverse(f: SwapFn, tokens: seq<Token>, value: U256)
    requires Repack(f, tokens, value).Some?
    ensures var a := Repack(f, tokens, value).value;
      && ActionFn(a) == f
      && |tokens| == Arity(f)
      && tokens == ArgTokens(a)
      && (NativeInput(f) ==> NativeAmount(a) == value)
  {
    var a := Repack(f, tokens, value).value;
    var k := if NativeInput(f) then 1 else 2;
    AddressArrayOfAddrVec(tokens[k]);
    assert tokens[k] == AddressArray(a.path);
    assert tokens == ArgTokens(a);
  }

  // ---- selector dispatch -----------------------------------------------------

  /** The first function of `fns` whose selector is `sel`. */
  function FindBySelector(fns: seq<SwapFn>, sel: seq<byte>): (r: Option<SwapFn>)
    ensures r.Some? ==> r.value in fns && Selector(r.value) == sel
    ensures r.None? ==> forall i :: 0 <= i < |fns| ==> Selector(fns[i]) != sel
  {
    if fns == [] then None
    else if Selector(fns[0]) == sel then Some(fns[0])
    else FindBySelector(fns[1..], sel)
  }

  lemma SelectorInjective(f: SwapFn, g: SwapFn)
    requires Selector(f) == Selector(g)
    ensures f == g
  {
  }

  lemma EveryFunctionInAbi(f: SwapFn)
    ensures f in RouterAbi
  {
  }

  /** Looking up the selector of `f` in the router ABI finds `f`. */
  lemma FindSelectorOf(f: SwapFn)
    ensures FindBySelector(RouterAbi, Selector(f)) == Some(f)
  {
    EveryFunctionInAbi(f);
    var i :| 0 <= i < |RouterAbi| && RouterAbi[i] == f;
    var r := FindBySelector(RouterAbi, Selector(f));
    assert Selector(RouterAbi[i]) == Selector(f);
    SelectorInjective(r.value, f);
  }

  /** `parse_quickswap_tx` as a function of the transaction and the ABI library's
      argument decoder. */
  function DecodeCall(tx: Transaction, decode: InputDecoder): (r: Option<QuickSwapAction>)
    ensures tx.to != Some(QUICKSWAP_ROUTER) ==> r.None?
    ensures |tx.input| < 4 ==> r.None?
    ensures |tx.input| >= 4 && (forall f :: Selector(f) != tx.input[..4]) ==> r.None?
    ensures r.Some? ==> |tx.input| >= 4 && decode(ActionFn(r.value), tx.input[4..]).Some?
  {
    if tx.to != Some(QUICKSWAP_ROUTER) then None
    else if |tx.input| < 4 then None
    else
      var f :- FindBySelector(RouterAbi, tx.input[..4]);
      var tokens :- decode(f, tx.input[4..]);
      var r := Repack(f, tokens, tx.value);
      if r.Some? then RepackInverse(f, tokens, tx.value); r else r
  }

  /** Encode then decode: a router call built from an action's selector and
      argument bytes that the ABI library decodes to the action's argument
      tokens decodes to exactly that action. */
  lemma {:induction false} DecodeCallComplete(tx: Transaction, decode: InputDecoder, a: QuickSwapAction, args: seq<byte>)
    requires tx.to == Some(QUICKSWAP_ROUTER)
    requires tx.input == Selector(ActionFn(a)) + args
    requires decode(ActionFn(a), args) == Some(ArgTokens(a))
    requires NativeInput(ActionFn(a)) ==> tx.value == NativeAmount(a)
    ensures DecodeCall(tx, decode) == Some(a)
  {
    var f := ActionFn(a);
    assert tx.input[..4] == Selector(f);
    assert tx.input[4..] == args;
    FindSelectorOf(f);
    RepackArgTokens(a, tx.value);
  }

  /** Decode is sound: an action comes only from a router call whose selector is
      that of its entry point and whose argument bytes decode to its argument
      tokens; a native-input action carries the transaction value. */
  lemma DecodeCallSound(tx: Transaction, decode: InputDecoder)
    requires DecodeCall(tx, decode).Some?
    ensures var a := DecodeCall(tx, decode).value;
      && tx.to == Some(QUICKSWAP_ROUTER)
      && |tx.input| >= 4
      && tx.input[..4] == Selector(ActionFn(a))
      && decode(ActionFn(a), tx.input[4..]) == Some(ArgTokens(a))
      && (NativeInput(ActionFn(a)) ==> tx.value == NativeAmount(a))
  {
    var f := FindBySelector(RouterAbi, tx.input[..4]).value;
    var tokens := decode(f, tx.input[4..]).value;
    RepackInverse(f, tokens, tx.value);
  }

  /** `parse_quickswap_tx`: reject non-router transactions and short calldata,
      scan the router ABI for the selector, decode the arguments of the first
      match and re-pack them.  Every arm of the match returns, so the scan never
      goes past the first function with that selector. */
  method ParseQuickSwapTx(tx: Transaction, decode: InputDecoder) returns (r: Option<QuickSwapAction>)
    ensures r == DecodeCall(tx, decode)
  {
    if tx.to != Some(QUICKSWAP_ROUTER) {
      return None;
    }
    var input := tx.input;
    if |input| < 4 {
      return None;
    }
    var selector := input[..4];
    var functions := RouterAbi;
    for i := 0 to |functions|
      invariant FindBySelector(functions, selector) == FindBySelector(functions[i..], selector)
    {
      var f := functions[i];
      if Selector(f) == selector {
        var tokens :- decode(f, input[4..]);
        return Repack(f, tokens, tx.value);
      }
      assert functions[i..][1..] == functions[i + 1..];
    }
    return None;
  }
}

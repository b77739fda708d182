/**
 * The token mapper of `plugins/tokens/store/mapper.go`: a key-value table of tokens keyed by
 * symbol, with create, read, existence, listing and a field-merging update. The store's
 * binary encoding and decoding of a token are taken to be inverse, so the table holds tokens.
 */
module TokenStore {
  import opened Wrappers

  /** The supply of a token; only `value` is inspected, the other fields travel with it. */
  datatype Supply = Supply(value: string, other: seq<int>)

  /**
   * A token: symbol, name and supply as the mapper sees them; `other` stands for the
   * remaining fields of the token type, which the mapper never reads or writes.
   */
  datatype Token = Token(symbol: string, name: string, supply: Supply, other: seq<int>)

  /** Go's zero `types.Token{}`. */
  const ZeroToken: Token := Token("", "", Supply("", []), [])

  const EmptySymbolError: string := "symbol cannot be empty"
  const TokenNotExistError: string := "token does not exist"

  function NotFoundError(symbol: string): string {
    "token(" + symbol + ") not found"
  }

  /** The field merge of `UpdateToken`: only a non-empty name and a non-empty supply are taken over. */
  function Merge(stored: Token, update: Token): (merged: Token)
    ensures merged.symbol == stored.symbol && merged.other == stored.other
    ensures update.name != "" ==> merged.name == update.name
    ensures update.name == "" ==> merged.name == stored.name
    ensures update.supply.value != "" ==> merged.supply == update.supply
    ensures update.supply.value == "" ==> merged.supply == stored.supply
  {
    var withName := if |update.name| != 0 then stored.(name := update.name) else stored;
    if |update.supply.value| != 0 then withName.(supply := update.supply) else withName
  }

  /** Merging the same update twice is merging it once. */
  lemma MergeIdempotent(stored: Token, update: Token)
    ensures Merge(Merge(stored, update), update) == Merge(stored, update)
  {
  }

  /** The error and the new table of one `NewToken` or `UpdateToken` call. */
  datatype UpdateOutcome = UpdateOutcome(err: Option<string>, store: map<string, Token>)

  /** `UpdateToken` on a table: reject an empty or unknown symbol, otherwise merge into that entry. */
  function ApplyUpdate(store: map<string, Token>, token: Token): (u: UpdateOutcome)
    ensures u.err.Some? <==> token.symbol == "" || token.symbol !in store
    ensures token.symbol == "" ==> u.err == Some(EmptySymbolError)
    ensures token.symbol != "" && token.symbol !in store ==> u.err == Some(TokenNotExistError)
    ensures u.err.Some? ==> u.store == store
    ensures u.store.Keys == store.Keys
    ensures forall k :: k in store && k != token.symbol ==> u.store[k] == store[k]
    ensures u.err.None? ==> u.store[token.symbol] == Merge(store[token.symbol], token)
  {
    if |token.symbol| == 0 then UpdateOutcome(Some(EmptySymbolError), store)
    else if token.symbol !in store then UpdateOutcome(Some(TokenNotExistError), store)
    else UpdateOutcome(None, store[token.symbol := Merge(store[token.symbol], token)])
  }

  /** Applying the same update twice leaves the table, and reports, as applying it once. */
  lemma UpdateTwiceIsUpdateOnce(store: map<string, Token>, token: Token)
    ensures ApplyUpdate(ApplyUpdate(store, token).store, token) == ApplyUpdate(store, token)
  {
    var once := ApplyUpdate(store, token);
    if once.err.None? {
      MergeIdempotent(store[token.symbol], token);
      assert once.store[token.symbol := Merge(once.store[token.symbol], token)] == once.store;
    }
  }

  /** `NewToken` on a table: reject an empty symbol, otherwise put the token under it. */
  function ApplyNew(store: map<string, Token>, token: Token): (u: UpdateOutcome)
    ensures u.err.Some? <==> token.symbol == ""
    ensures u.err.Some? ==> u.err == Some(EmptySymbolError) && u.store == store
    ensures u.err.None? ==> u.store.Keys == store.Keys + {token.symbol} && u.store[token.symbol] == token
    ensures forall k :: k in store && k != token.symbol ==> k in u.store && u.store[k] == store[k]
  {
    if |token.symbol| == 0 then UpdateOutcome(Some(EmptySymbolError), store)
    else UpdateOutcome(None, store[token.symbol := token])
  }

  /** Creating a token and then updating it is creating the merged token. */
  lemma NewThenUpdateIsNewOfMerged(store: map<string, Token>, token: Token, update: Token)
    requires token.symbol != "" && update.symbol == token.symbol
    ensures ApplyUpdate(ApplyNew(store, token).store, update) == ApplyNew(store, Merge(token, update))
  {
    var created := ApplyNew(store, token).store;
    assert created[token.symbol := Merge(created[token.symbol], update)] == store[token.symbol := Merge(token, update)];
  }

  /** Every entry is stored under its own symbol. */
  ghost predicate KeyedBySymbol(store: map<string, Token>) {
    forall k :: k in store ==> store[k].symbol == k
  }

  /** Creating and updating keep every entry under its own symbol. */
  lemma OperationsKeepKeying(store: map<string, Token>, token: Token)
    requires KeyedBySymbol(store)
    ensures KeyedBySymbol(ApplyNew(store, token).store)
    ensures KeyedBySymbol(ApplyUpdate(store, token).store)
  {
  }

  /** No two keys in `ks` are the same. */
  ghost predicate Distinct(ks: seq<string>) {
    forall i, j :: 0 <= i < j < |ks| ==> ks[i] != ks[j]
  }

  /** Go's `mapper` over its KV store. */
  class Mapper {
    var store: map<string, Token>

    ghost predicate Valid()
      reads this
    {
      KeyedBySymbol(store)
    }

    /** A mapper over a store that already holds `initial`, each entry under its own symbol. */
    constructor (initial: map<string, Token>)
      requires KeyedBySymbol(initial)
      ensures store == initial && Valid()
    {
      store := initial;
    }

    /** `GetToken`: the stored token, or the zero token and an error naming the symbol. */
    method GetToken(symbol: string) returns (token: Token, err: Option<string>)
      ensures symbol in store ==> token == store[symbol] && err == None
      ensures symbol !in store ==> token == ZeroToken && err == Some(NotFoundError(symbol))
      ensures Valid() && err.None? ==> token.symbol == symbol
    {
      if symbol in store {
        return store[symbol], None;
      }
      return ZeroToken, Some(NotFoundError(symbol));
    }

    /**
     * `GetTokenList`: one token per stored entry. The store's iteration order is not part of
     * this model: `order` is the sequence of keys in the order they were visited.
     */
    method GetTokenList() returns (res: seq<Token>, ghost order: seq<string>)
      ensures |res| == |store|
      ensures forall k :: k in store ==> store[k] in res
      ensures forall t :: t in res ==> t in store.Values
      ensures |order| == |res| && Distinct(order)
      ensures forall i :: 0 <= i < |order| ==> order[i] in store && res[i] == store[order[i]]
      ensures Valid() ==> forall i :: 0 <= i < |res| ==> res[i].symbol == order[i]
    {
      res, order := [], [];
      var remaining := store.Keys;
      while remaining != {}
        invariant remaining <= store.Keys
        invariant |order| == |res| && Distinct(order)
        invariant forall i :: 0 <= i < |order| ==> order[i] in store && order[i] !in remaining && res[i] == store[order[i]]
        invariant forall k :: k in store && k !in remaining ==> k in order
        invariant |order| + |remaining| == |store.Keys|
        decreases remaining
      {
        var k :| k in remaining;
        res := res + [store[k]];
        order := order + [k];
        remaining := remaining - {k};
      }
      assert |store.Keys| == |store|;
      forall k | k in store
        ensures store[k] in res
      {
        var i :| 0 <= i < |order| && order[i] == k;
        assert res[i] == store[k];
      }
    }

    /** `Exists`: the symbol is a key of the store; nothing changes. */
    method Exists(symbol: string) returns (b: bool)
      ensures b <==> symbol in store
    {
      b := symbol in store;
    }

    /** `NewToken`: reject an empty symbol, otherwise store the token under it, overwriting any entry. */
    method NewToken(token: Token) returns (err: Option<string>)
      modifies this
      ensures token.symbol == "" ==> err == Some(EmptySymbolError) && store == old(store)
      ensures token.symbol != "" ==> err == None && store == old(store)[token.symbol := token]
      ensures UpdateOutcome(err, store) == ApplyNew(old(store), token)
      ensures old(Valid()) ==> Valid()
    {
      var symbol := token.symbol;
      if |symbol| == 0 {
        return Some(EmptySymbolError);
      }
      store := store[symbol := token];
      return None;
    }

    /** `UpdateToken`: copy the stored entry, overwrite name and supply when given, store it back. */
    method UpdateToken(token: Token) returns (err: Option<string>)
      modifies this
      ensures UpdateOutcome(err, store) == ApplyUpdate(old(store), token)
      ensures old(Valid()) ==> Valid()
    {
      var symbol := token.symbol;
      if |symbol| == 0 {
        return Some(EmptySymbolError);
      }
      if symbol !in store {
        return Some(TokenNotExistError);
      }
      var toBeUpdated := store[symbol];
      if |token.name| != 0 {
        toBeUpdated := toBeUpdated.(name := token.name);
      }
      if |token.supply.value| != 0 {
        toBeUpdated := toBeUpdated.(supply := token.supply);
      }
      store := store[symbol := toBeUpdated];
      if old(Valid()) { OperationsKeepKeying(old(store), token); }
      return None;
    }
  }
}

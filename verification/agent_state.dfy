/**
  * The agent's state channels and their reducers: `messages` only ever grows
  * by concatenation, `products` takes the latest non-null write and defaults
  * to the empty list.
  */
module AgentState {
  import opened Builtins
  import opened Seqs
  import opened Catalog
  import opened Messages

  datatype State = State(messages: seq<Message>, products: seq<ToolProduct>)

  /**
    * What a node (or the caller's input) returns for each channel: `None` when
    * the key is absent, `null` or `undefined`.
    */
  datatype Update = Update(messages: Option<seq<Message>>, products: Option<seq<ToolProduct>>)

  const DefaultProducts: seq<ToolProduct> := []

  /** The `messages` reducer `(x, y) => x.concat(y)`. */
  function ReduceMessages(x: seq<Message>, y: seq<Message>): (r: seq<Message>)
    ensures x <= r
    ensures |r| == |x| + |y|
    ensures r[|x|..] == y
  {
    x + y
  }

  /** The `products` reducer `(x, y) => y ?? x`. */
  function ReduceProducts(x: seq<ToolProduct>, y: Option<seq<ToolProduct>>): (r: seq<ToolProduct>)
    ensures y.Some? ==> r == y.value
    ensures y.None? ==> r == x
  {
    y.GetOr(x)
  }

  /**
    * Folding an update into the state, channel by channel: the messages it
    * carries are appended, and its products (when present) replace the old.
    */
  function Apply(s: State, u: Update): (t: State)
    ensures t.messages == s.messages + Added(u)
    ensures u.products.Some? ==> t.products == u.products.value
    ensures u.products.None? ==> t.products == s.products
  {
    State(
      if u.messages.Some? then ReduceMessages(s.messages, u.messages.value) else s.messages,
      ReduceProducts(s.products, u.products))
  }

  /** The state a run starts from: the input folded into the channel defaults. */
  function Initial(input: Update): (s: State)
    ensures input.products.None? ==> s.products == DefaultProducts
  {
    State(input.messages.GetOr([]), ReduceProducts(DefaultProducts, input.products))
  }

  /** Several updates, applied in order. */
  function ApplyAll(s: State, us: seq<Update>): State
    decreases |us|
  {
    if us == [] then s else ApplyAll(Apply(s, us[0]), us[1..])
  }

  /** The messages an update adds (none when it has no `messages` key). */
  function Added(u: Update): seq<Message> {
    u.messages.GetOr([])
  }

  /** Everything a sequence of updates adds to `messages`, in update order. */
  function AllAdded(us: seq<Update>): seq<Message>
    decreases |us|
  {
    if us == [] then [] else Added(us[0]) + AllAdded(us[1..])
  }

  /**
    * After any sequence of updates the message list is the old one followed
    * by every added message, in update order; so the old list is always a
    * prefix and the length grows by exactly what was added.
    */
  lemma {:induction false} MessagesAppendOnly(s: State, us: seq<Update>)
    ensures ApplyAll(s, us).messages == s.messages + AllAdded(us)
    ensures s.messages <= ApplyAll(s, us).messages
  {
    AllAddedAppended(s, us);
  }

  /** The first half of `MessagesAppendOnly`, by induction on the updates. */
  lemma {:induction false} AllAddedAppended(s: State, us: seq<Update>)
    ensures ApplyAll(s, us).messages == s.messages + AllAdded(us)
    decreases |us|
  {
    if us == [] {
      assert s.messages + [] == s.messages;
    } else {
      var next := Apply(s, us[0]);
      var rest := AllAdded(us[1..]);
      AllAddedAppended(next, us[1..]);
      calc {
        ApplyAll(s, us).messages;
        ApplyAll(next, us[1..]).messages;
        next.messages + rest;
        (s.messages + Added(us[0])) + rest;
        { ConcatAssociative(s.messages, Added(us[0]), rest); }
        s.messages + (Added(us[0]) + rest);
        s.messages + AllAdded(us);
      }
    }
  }

  /** Concatenation is associative (proved on its own, away from the message types). */
  lemma ConcatAssociative<T>(a: seq<T>, b: seq<T>, c: seq<T>)
    ensures (a + b) + c == a + (b + c)
  {
  }

  /** The products channel holds the last write that was present, whatever came before. */
  lemma {:induction false} ProductsLastWriteWins(s: State, us: seq<Update>, k: int)
    requires 0 <= k < |us| && us[k].products.Some?
    requires forall j :: k < j < |us| ==> us[j].products.None?
    ensures ApplyAll(s, us).products == us[k].products.value
    decreases |us|
  {
    if k > 0 {
      ProductsLastWriteWins(Apply(s, us[0]), us[1..], k - 1);
    } else {
      ProductsUnwritten(Apply(s, us[0]), us[1..]);
    }
  }

  /** Updates without a `products` value leave the channel as it was. */
  lemma {:induction false} ProductsUnwritten(s: State, us: seq<Update>)
    requires forall j :: 0 <= j < |us| ==> us[j].products.None?
    ensures ApplyAll(s, us).products == s.products
    decreases |us|
  {
    if us != [] {
      ProductsUnwritten(Apply(s, us[0]), us[1..]);
    }
  }
}

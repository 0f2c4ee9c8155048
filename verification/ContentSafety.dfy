/** The content guard (io_iii/core/content_safety.py) and the content strip at
    the API boundary (io_iii/api/app.py). */
module ContentSafety {
  import opened Values

  const DEFAULT_FORBIDDEN_KEYS: set<string> := {
    "prompt", "user_prompt", "system_prompt", "assembled_prompt", "message", "completion",
    "draft", "revision", "content", "file_content", "file_text"
  }

  const METADATA_FORBIDDEN_KEYS: set<string> := DEFAULT_FORBIDDEN_KEYS + {"output"}

  const UNSAFE_KEYS: set<string> := {"message", "prompt", "persona_content", "value", "logging_policy"}

  // ---- What "no forbidden key anywhere" means -------------------------------

  /** The values one level below a value, dictionaries by key and sequences by position. */
  datatype Hop = Field(key: Key) | Item(index: nat)

  function Child(v: Value, hop: Hop): Option<Value> {
    match (v, hop)
    case (Dict(m), Field(k)) => if k in m then Some(m[k]) else None
    case (List(xs), Item(i)) => if i < |xs| then Some(xs[i]) else None
    case (Tuple(xs), Item(i)) => if i < |xs| then Some(xs[i]) else None
    case (PySet(xs), Item(i)) => if i < |xs| then Some(xs[i]) else None
    case _ => None
  }

  /** The value a path leads to, if it leads anywhere. */
  function At(v: Value, path: seq<Hop>): Option<Value>
    decreases |path|
  {
    if path == [] then Some(v)
    else match Child(v, path[0])
      case None => None
      case Some(c) => At(c, path[1..])
  }

  /** A forbidden string key sits in the dictionary at the end of some path. */
  ghost predicate ForbiddenAt(v: Value, path: seq<Hop>, name: string) {
    var target := At(v, path);
    target.Some? && target.value.Dict? && target.value.Has(name)
  }

  ghost predicate HasForbidden(v: Value, forbidden: set<string>) {
    exists path, name :: name in forbidden && ForbiddenAt(v, path, name)
  }

  predicate AllowedKey(k: Key, forbidden: set<string>) {
    k.Name? ==> k.text !in forbidden
  }

  /** The same by structural recursion. */
  predicate Clean(v: Value, forbidden: set<string>) {
    match v
    case Dict(m) => forall k | k in m :: AllowedKey(k, forbidden) && Clean(m[k], forbidden)
    case List(xs) => forall i | 0 <= i < |xs| :: Clean(xs[i], forbidden)
    case Tuple(xs) => forall i | 0 <= i < |xs| :: Clean(xs[i], forbidden)
    case PySet(xs) => forall i | 0 <= i < |xs| :: Clean(xs[i], forbidden)
    case _ => true
  }

  lemma {:induction false} CleanAlongPath(v: Value, forbidden: set<string>, path: seq<Hop>)
    requires Clean(v, forbidden) && At(v, path).Some?
    ensures Clean(At(v, path).value, forbidden)
    decreases |path|
  {
    if path != [] {
      CleanAlongPath(Child(v, path[0]).value, forbidden, path[1..]);
    }
  }

  lemma {:induction false} DirtyHasPath(v: Value, forbidden: set<string>) returns (path: seq<Hop>, name: string)
    requires !Clean(v, forbidden)
    ensures name in forbidden && ForbiddenAt(v, path, name)
    decreases v
  {
    if v.Dict? && exists k :: k in v.entries && !AllowedKey(k, forbidden) {
      var k :| k in v.entries && !AllowedKey(k, forbidden);
      path, name := [], k.text;
      assert At(v, path) == Some(v);
    } else {
      var hop: Hop, c: Value;
      match v {
        case Dict(m) =>
          var k :| k in m && !Clean(m[k], forbidden);
          hop, c := Field(k), m[k];
        case List(xs) =>
          var i: nat :| i < |xs| && !Clean(xs[i], forbidden);
          hop, c := Item(i), xs[i];
        case Tuple(xs) =>
          var i: nat :| i < |xs| && !Clean(xs[i], forbidden);
          hop, c := Item(i), xs[i];
        case PySet(xs) =>
          var i: nat :| i < |xs| && !Clean(xs[i], forbidden);
          hop, c := Item(i), xs[i];
      }
      var rest: seq<Hop>;
      rest, name := DirtyHasPath(c, forbidden);
      path := [hop] + rest;
      assert path[1..] == rest;
      assert At(v, path) == At(c, rest);
    }
  }

  /** The two readings agree: a value is clean exactly when no path reaches a forbidden key. */
  lemma CleanIffNoForbiddenKey(v: Value, forbidden: set<string>)
    ensures Clean(v, forbidden) <==> !HasForbidden(v, forbidden)
  {
    if Clean(v, forbidden) {
      forall path, name | name in forbidden
        ensures !ForbiddenAt(v, path, name)
      {
        if At(v, path).Some? {
          CleanAlongPath(v, forbidden, path);
          assert !AllowedKey(Name(name), forbidden);
        }
      }
    } else {
      var path, name := DirtyHasPath(v, forbidden);
    }
  }

  // ---- The worklist traversal ----------------------------------------------

  /** Number of values in a tree, counting the root. */
  ghost function Nodes(v: Value): nat
    decreases v, 1, 0
  {
    1 + match v
        case Dict(m) => EntryNodes(v, m.Keys)
        case List(xs) => ItemNodes(xs)
        case Tuple(xs) => ItemNodes(xs)
        case PySet(xs) => ItemNodes(xs)
        case _ => 0
  }

  ghost function ItemNodes(xs: seq<Value>): nat
    decreases xs, 0, 0
  {
    if xs == [] then 0 else ItemNodes(xs[..|xs| - 1]) + Nodes(xs[|xs| - 1])
  }

  ghost function EntryNodes(v: Value, keys: set<Key>): nat
    requires v.Dict? && keys <= v.entries.Keys
    decreases v, 0, |keys|
  {
    if keys == {} then 0 else
      var k :| k in keys;
      Nodes(v.entries[k]) + EntryNodes(v, keys - {k})
  }

  /** The sum over the entries does not depend on the order they are visited in. */
  lemma {:induction false} EntryNodesRemove(v: Value, keys: set<Key>, k: Key)
    requires v.Dict? && keys <= v.entries.Keys && k in keys
    ensures EntryNodes(v, keys) == Nodes(v.entries[k]) + EntryNodes(v, keys - {k})
    decreases |keys|
  {
    var j :| j in keys && EntryNodes(v, keys) == Nodes(v.entries[j]) + EntryNodes(v, keys - {j});
    if j != k {
      EntryNodesRemove(v, keys - {j}, k);
      EntryNodesRemove(v, keys - {k}, j);
      assert keys - {j} - {k} == keys - {k} - {j};
    }
  }

  lemma {:induction false} ItemNodesConcat(xs: seq<Value>, ys: seq<Value>)
    ensures ItemNodes(xs + ys) == ItemNodes(xs) + ItemNodes(ys)
    decreases |ys|
  {
    if ys == [] {
      assert xs + ys == xs;
    } else {
      assert (xs + ys)[..|xs + ys| - 1] == xs + ys[..|ys| - 1];
      ItemNodesConcat(xs, ys[..|ys| - 1]);
    }
  }

  ghost predicate AllClean(xs: seq<Value>, forbidden: set<string>) {
    forall i | 0 <= i < |xs| :: Clean(xs[i], forbidden)
  }

  lemma AllCleanConcat(xs: seq<Value>, ys: seq<Value>, forbidden: set<string>)
    ensures AllClean(xs + ys, forbidden) <==> AllClean(xs, forbidden) && AllClean(ys, forbidden)
  {
    assert forall i | 0 <= i < |xs| :: (xs + ys)[i] == xs[i];
    assert forall i | 0 <= i < |ys| :: (xs + ys)[|xs| + i] == ys[i];
  }

  /** Visit a dictionary's entries, pushing each value until a forbidden key turns up. */
  method PushEntries(v: Value, forbidden: set<string>, below: seq<Value>) returns (ok: bool, stack: seq<Value>)
    requires v.Dict?
    ensures !ok ==> !Clean(v, forbidden)
    ensures ok ==> (AllClean(stack, forbidden) <==> AllClean(below + [v], forbidden))
    ensures ok ==> ItemNodes(stack) < ItemNodes(below + [v])
  {
    stack := below;
    var todo := v.entries.Keys;
    ItemNodesConcat(below, [v]);
    AllCleanConcat(below, [v], forbidden);
    while todo != {}
      invariant todo <= v.entries.Keys
      invariant forall k | k in v.entries && k !in todo :: AllowedKey(k, forbidden)
      invariant AllClean(stack, forbidden) <==>
        AllClean(below, forbidden) && forall k | k in v.entries && k !in todo :: Clean(v.entries[k], forbidden)
      invariant ItemNodes(stack) + EntryNodes(v, todo) == ItemNodes(below) + EntryNodes(v, v.entries.Keys)
      decreases todo
    {
      var k :| k in todo;
      if k.Name? && k.text in forbidden {
        return false, stack;
      }
      EntryNodesRemove(v, todo, k);
      ItemNodesConcat(stack, [v.entries[k]]);
      AllCleanConcat(stack, [v.entries[k]], forbidden);
      assert AllClean([v.entries[k]], forbidden) <==> Clean(v.entries[k], forbidden) by {
        assert [v.entries[k]][0] == v.entries[k];
      }
      stack := stack + [v.entries[k]];
      todo := todo - {k};
    }
    assert [v][0] == v;
    ok := true;
  }

  /** Replacing a sequence on the stack by its items. */
  lemma PushItems(below: seq<Value>, cur: Value, xs: seq<Value>, forbidden: set<string>)
    requires cur == List(xs) || cur == Tuple(xs) || cur == PySet(xs)
    ensures AllClean(below + xs, forbidden) <==> AllClean(below + [cur], forbidden)
    ensures ItemNodes(below + xs) < ItemNodes(below + [cur])
  {
    AllCleanConcat(below, xs, forbidden);
    AllCleanConcat(below, [cur], forbidden);
    assert AllClean([cur], forbidden) <==> AllClean(xs, forbidden) by { assert [cur][0] == cur; }
    ItemNodesConcat(below, xs);
    ItemNodesConcat(below, [cur]);
    assert [cur][..0] == [];
  }

  /** Dropping a scalar from the stack. */
  lemma PopScalar(below: seq<Value>, cur: Value, forbidden: set<string>)
    requires !cur.Dict? && !cur.List? && !cur.Tuple? && !cur.PySet?
    ensures AllClean(below, forbidden) <==> AllClean(below + [cur], forbidden)
    ensures ItemNodes(below) < ItemNodes(below + [cur])
  {
    AllCleanConcat(below, [cur], forbidden);
    assert AllClean([cur], forbidden);
    ItemNodesConcat(below, [cur]);
    assert [cur][..0] == [];
  }

  lemma DirtyEntry(below: seq<Value>, cur: Value, forbidden: set<string>)
    requires !Clean(cur, forbidden)
    ensures !AllClean(below + [cur], forbidden)
  {
    assert (below + [cur])[|below|] == cur;
  }

  lemma Singleton(v: Value, forbidden: set<string>)
    ensures AllClean([v], forbidden) <==> Clean(v, forbidden)
    ensures AllClean([], forbidden)
  {
    assert [v][0] == v;
  }

  /** `assert_no_forbidden_keys`: true when it returns, false when it raises ValueError. */
  method AssertNoForbiddenKeys(v: Value, forbidden: set<string>) returns (ok: bool)
    ensures ok <==> !HasForbidden(v, forbidden)
    ensures ok <==> Clean(v, forbidden)
  {
    hide Clean, AllClean, ItemNodes, HasForbidden;
    CleanIffNoForbiddenKey(v, forbidden);
    var stack := [v];
    Singleton(v, forbidden);
    while stack != []
      invariant AllClean(stack, forbidden) <==> Clean(v, forbidden)
      decreases ItemNodes(stack)
    {
      var cur := stack[|stack| - 1];
      var below := stack[..|stack| - 1];
      assert stack == below + [cur];
      match cur {
        case Dict(m) =>
          ok, stack := PushEntries(cur, forbidden, below);
          if !ok {
            DirtyEntry(below, cur, forbidden);
            return;
          }
        case List(xs) =>
          PushItems(below, cur, xs, forbidden);
          stack := below + xs;
        case Tuple(xs) =>
          PushItems(below, cur, xs, forbidden);
          stack := below + xs;
        case PySet(xs) =>
          PushItems(below, cur, xs, forbidden);
          stack := below + xs;
        case _ =>
          PopScalar(below, cur, forbidden);
          stack := below;
      }
    }
    ok := true;
  }

  // ---- The strip at the API boundary -----------------------------------------

  /** `_strip_content`: drop unsafe keys from dictionaries, descending through dictionaries and lists only. */
  function StripContent(v: Value): Value {
    match v
    case Dict(m) => Dict(map k | k in m && AllowedKey(k, UNSAFE_KEYS) :: StripContent(m[k]))
    case List(xs) => List(seq(|xs|, i requires 0 <= i < |xs| => StripContent(xs[i])))
    case _ => v
  }

  /** What `json.loads` yields: string keys, no tuples and no sets. */
  predicate IsJson(v: Value) {
    match v
    case Dict(m) => forall k | k in m :: k.Name? && IsJson(m[k])
    case List(xs) => forall i | 0 <= i < |xs| :: IsJson(xs[i])
    case Tuple(_) => false
    case PySet(_) => false
    case _ => true
  }

  /** Wherever the strip does not look, there is nothing to find: below the dictionaries and lists
      that it descends through, every other value is clean. */
  predicate Sealed(v: Value) {
    match v
    case Dict(m) => forall k | k in m && AllowedKey(k, UNSAFE_KEYS) :: Sealed(m[k])
    case List(xs) => forall i | 0 <= i < |xs| :: Sealed(xs[i])
    case _ => Clean(v, UNSAFE_KEYS)
  }

  /** Stripped output passes the recursive guard for the unsafe keys exactly if the input is sealed. */
  lemma {:induction false} StripIsCleanIff(v: Value)
    ensures Clean(StripContent(v), UNSAFE_KEYS) <==> Sealed(v)
    decreases v
  {
    match v
    case Dict(m) =>
      forall k | k in m ensures Clean(StripContent(m[k]), UNSAFE_KEYS) <==> Sealed(m[k]) {
        StripIsCleanIff(m[k]);
      }
      var stripped := StripContent(v).entries;
      assert forall k | k in stripped :: stripped[k] == StripContent(m[k]);
    case List(xs) =>
      forall i | 0 <= i < |xs| ensures Clean(StripContent(xs[i]), UNSAFE_KEYS) <==> Sealed(xs[i]) {
        StripIsCleanIff(xs[i]);
      }
      var stripped := StripContent(v).items;
      assert forall i | 0 <= i < |xs| :: stripped[i] == StripContent(xs[i]);
    case _ =>
  }

  lemma {:induction false} JsonIsSealed(v: Value)
    requires IsJson(v)
    ensures Sealed(v)
    decreases v
  {
    match v
    case Dict(m) =>
      forall k | k in m ensures Sealed(m[k]) {
        JsonIsSealed(m[k]);
      }
    case List(xs) =>
      forall i | 0 <= i < |xs| ensures Sealed(xs[i]) {
        JsonIsSealed(xs[i]);
      }
    case _ =>
  }

  /** In particular stripped JSON output does, and JSON is all the API boundary strips. */
  lemma StrippedOutputHasNoUnsafeKey(v: Value)
    requires IsJson(v)
    ensures !HasForbidden(StripContent(v), UNSAFE_KEYS)
  {
    JsonIsSealed(v);
    StripIsCleanIff(v);
    CleanIffNoForbiddenKey(StripContent(v), UNSAFE_KEYS);
  }

  /** A tuple is not sealed if it holds an unsafe key. */
  lemma StripMissesTuples()
    ensures var v := Tuple([Dict(map[Name("prompt") := Str("x")])]);
            StripContent(v) == v && HasForbidden(v, UNSAFE_KEYS)
  {
    var v := Tuple([Dict(map[Name("prompt") := Str("x")])]);
    assert At(v, [Item(0)]) == At(v.parts[0], [Item(0)][1..]);
    assert ForbiddenAt(v, [Item(0)], "prompt");
  }

  /** Cleaned trees are left alone, so stripping twice is stripping once. */
  lemma {:induction false} StripKeepsClean(v: Value)
    requires Clean(v, UNSAFE_KEYS)
    ensures StripContent(v) == v
    decreases v
  {
    match v
    case Dict(m) =>
      forall k | k in m ensures StripContent(m[k]) == m[k] {
        StripKeepsClean(m[k]);
      }
    case List(xs) =>
      forall i | 0 <= i < |xs| ensures StripContent(xs[i]) == xs[i] {
        StripKeepsClean(xs[i]);
      }
    case _ =>
  }

  lemma {:induction false} StripIdempotent(v: Value)
    ensures StripContent(StripContent(v)) == StripContent(v)
    decreases v
  {
    match v
    case Dict(m) =>
      forall k | k in m ensures StripContent(StripContent(m[k])) == StripContent(m[k]) {
        StripIdempotent(m[k]);
      }
    case List(xs) =>
      forall i | 0 <= i < |xs| ensures StripContent(StripContent(xs[i])) == StripContent(xs[i]) {
        StripIdempotent(xs[i]);
      }
    case _ =>
  }

  ghost predicate SafePath(path: seq<Hop>) {
    forall i | 0 <= i < |path| :: path[i].Field? ==> AllowedKey(path[i].key, UNSAFE_KEYS)
  }

  /** A JSON tree keeps every path that names no unsafe key, with the stripped value at its end,
      and a path through an unsafe key leads nowhere. */
  lemma {:induction false} StripKeepsSafePaths(v: Value, path: seq<Hop>)
    requires IsJson(v)
    ensures At(StripContent(v), path) ==
            if SafePath(path) && At(v, path).Some? then Some(StripContent(At(v, path).value)) else None
    decreases |path|
  {
    if path != [] {
      var hop := path[0];
      if hop.Field? && !AllowedKey(hop.key, UNSAFE_KEYS) {
      } else {
        assert SafePath(path) <==> SafePath(path[1..]) by {
          assert path == [hop] + path[1..];
        }
        match Child(v, hop)
        case Some(c) =>
          assert Child(StripContent(v), hop) == Some(StripContent(c));
          StripKeepsSafePaths(c, path[1..]);
        case None =>
      }
    }
  }
}

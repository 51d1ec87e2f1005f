/**
 * The repair script that adds missing `_key`s to store documents
 * (scripts/fix-missing-keys.js). For each store it rebuilds the description
 * blocks and their children with keys, rebuilds the secondary-category
 * references with keys, queues a `set` patch for each part that needs one,
 * merges the queued patches and commits the result.
 *
 * The store list is an input, whether each commit throws is a parameter, and
 * the keys `generateKey` hands out while one store is repaired are a key
 * source read at increasing positions from a counter.
 */
module FixKeys {
  import opened Wrappers
  import opened Portable

  /** The members of a store document the script reads; a description or a list that is missing or is not an array is `None`. */
  datatype KeyStore = KeyStore(
    id: string,
    name: string,
    description: Option<seq<Block>>,
    secondaryCategories: Option<seq<KeyedRef>>)

  /** The object under `set` of a queued patch. */
  datatype Payload = DescriptionPayload(description: seq<Block>) | CategoriesPayload(secondaryCategories: seq<KeyedRef>)

  /** A queued patch `{ set: ... }`; `assigns` is its `set` member (`set` is a Dafny keyword). */
  datatype Patch = Patch(assigns: Payload)

  // ---------------------------------------------------------------------------
  // Children, blocks and references, as the map callbacks rebuild them
  // ---------------------------------------------------------------------------

  /** `block.children`, or `[]` when it is missing. */
  function ChildrenOf(b: Block): seq<Span> {
    if b.children.Some? then b.children.value else []
  }

  /** A rebuilt span: a `_key` is present, an existing one is kept, nothing else changes. */
  predicate SpanFixed(old_: Span, new_: Span) {
    new_.key.Some? && (HasKey(old_.key) ==> new_.key == old_.key)
    && new_.spanType == old_.spanType && new_.text == old_.text
  }

  /** Children rebuilt one for one. */
  predicate ChildrenFixed(old_: seq<Span>, new_: seq<Span>) {
    |new_| == |old_| && forall j :: 0 <= j < |old_| ==> SpanFixed(old_[j], new_[j])
  }

  /** A rebuilt block: a `_key` is present, an existing one is kept, and its children are rebuilt; a block without children gets `[]`. */
  predicate BlockFixed(old_: Block, new_: Block) {
    new_.key.Some? && (HasKey(old_.key) ==> new_.key == old_.key)
    && new_.blockType == old_.blockType && new_.style == old_.style
    && new_.children.Some? && ChildrenFixed(ChildrenOf(old_), new_.children.value)
  }

  /** A rebuilt reference: a `_key` is present, an existing one is kept, the target is unchanged. */
  predicate RefFixed(old_: KeyedRef, new_: KeyedRef) {
    new_.key.Some? && (HasKey(old_.key) ==> new_.key == old_.key) && new_.ref == old_.ref
  }

  /** How many keys rebuilding the spans draws: one per span without a key. */
  function SpanKeysUsed(children: seq<Span>): nat {
    if children == [] then 0
    else (if HasKey(children[0].key) then 0 else 1) + SpanKeysUsed(children[1..])
  }

  /** `children.map(child => ({...child, _key: child._key || generateKey()}))`, drawing keys from position `next` on. */
  function FixSpans(children: seq<Span>, keyAt: nat -> string, next: nat): (r: seq<Span>)
    ensures ChildrenFixed(children, r)
    ensures forall j :: 0 <= j < |children| && HasKey(children[j].key) ==> r[j] == children[j]
  {
    if children == [] then []
    else if HasKey(children[0].key) then [children[0]] + FixSpans(children[1..], keyAt, next)
    else [children[0].(key := Some(keyAt(next)))] + FixSpans(children[1..], keyAt, next + 1)
  }

  /** How many keys rebuilding one block draws: one for the block when it has none, then its children's. */
  function BlockKeysUsed(b: Block): nat {
    (if HasKey(b.key) then 0 else 1) + SpanKeysUsed(ChildrenOf(b))
  }

  /** The description map callback for one block, drawing keys from position `next` on: the block's own key first. */
  function FixBlock(b: Block, keyAt: nat -> string, next: nat): (r: Block)
    ensures BlockFixed(b, r)
  {
    if !HasKey(b.key) then
      b.(key := Some(keyAt(next)), children := Some(FixSpans(ChildrenOf(b), keyAt, next + 1)))
    else
      b.(children := Some(FixSpans(ChildrenOf(b), keyAt, next)))
  }

  /** How many keys rebuilding the blocks draws. */
  function KeysUsed(blocks: seq<Block>): nat {
    if blocks == [] then 0 else KeysUsed(blocks[..|blocks| - 1]) + BlockKeysUsed(blocks[|blocks| - 1])
  }

  /** `store.description.map(...)`: each block rebuilt in turn, the key counter running on from block to block. */
  function FixedBlocks(blocks: seq<Block>, keyAt: nat -> string, next: nat): (r: seq<Block>)
    ensures |r| == |blocks|
  {
    if blocks == [] then []
    else
      var init := blocks[..|blocks| - 1];
      FixedBlocks(init, keyAt, next) + [FixBlock(blocks[|blocks| - 1], keyAt, next + KeysUsed(init))]
  }

  /** Every block of the rebuilt description is rebuilt from the block at its position. */
  lemma {:induction false} FixedBlocksFixed(blocks: seq<Block>, keyAt: nat -> string, next: nat)
    ensures forall i :: 0 <= i < |blocks| ==> BlockFixed(blocks[i], FixedBlocks(blocks, keyAt, next)[i])
  {
    if blocks != [] {
      var init := blocks[..|blocks| - 1];
      FixedBlocksFixed(init, keyAt, next);
      forall i | 0 <= i < |blocks|
        ensures BlockFixed(blocks[i], FixedBlocks(blocks, keyAt, next)[i])
      {
        if i < |init| {
          assert blocks[i] == init[i];
          assert FixedBlocks(blocks, keyAt, next)[i] == FixedBlocks(init, keyAt, next)[i];
        }
      }
    }
  }

  /** Some block lacks a `_key` (a missing or empty one). */
  predicate SomeBlockUnkeyed(blocks: seq<Block>) {
    exists i :: 0 <= i < |blocks| && !HasKey(blocks[i].key)
  }

  /** Some reference lacks a `_key`: `secondaryCategories.some(cat => !cat._key)`. */
  predicate SomeRefUnkeyed(refs: seq<KeyedRef>) {
    exists i :: 0 <= i < |refs| && !HasKey(refs[i].key)
  }

  /** One more block: the rebuilt description gains that block, rebuilt from the keys the earlier blocks left over. */
  lemma FixedBlocksAppend(blocks: seq<Block>, b: Block, keyAt: nat -> string, next: nat, after: nat)
    requires after == next + KeysUsed(blocks)
    ensures FixedBlocks(blocks + [b], keyAt, next) == FixedBlocks(blocks, keyAt, next) + [FixBlock(b, keyAt, after)]
    ensures KeysUsed(blocks + [b]) == KeysUsed(blocks) + BlockKeysUsed(b)
    ensures SomeBlockUnkeyed(blocks + [b]) <==> SomeBlockUnkeyed(blocks) || !HasKey(b.key)
  {
    var all := blocks + [b];
    assert all[..|all| - 1] == blocks && all[|all| - 1] == b;
    if SomeBlockUnkeyed(blocks) {
      var k :| 0 <= k < |blocks| && !HasKey(blocks[k].key);
      assert all[k] == blocks[k];
    }
  }

  /** One call of the description callback: the block rebuilt, the flag raised when it had no key, its keys drawn. */
  method PushBlock(ghost done: seq<Block>, b: Block, keyAt: nat -> string, next: nat,
                   fixed: seq<Block>, needsUpdate: bool, after: nat)
    returns (fixed': seq<Block>, needsUpdate': bool, after': nat)
    requires fixed == FixedBlocks(done, keyAt, next)
    requires needsUpdate <==> SomeBlockUnkeyed(done)
    requires after == next + KeysUsed(done)
    ensures fixed' == FixedBlocks(done + [b], keyAt, next)
    ensures needsUpdate' <==> SomeBlockUnkeyed(done + [b])
    ensures after' == next + KeysUsed(done + [b])
  {
    FixedBlocksAppend(done, b, keyAt, next, after);
    needsUpdate' := needsUpdate;
    if !HasKey(b.key) {
      needsUpdate' := true;
    }
    fixed' := fixed + [FixBlock(b, keyAt, after)];
    after' := after + BlockKeysUsed(b);
  }

  /**
   * The description pass of the loop body: the blocks rebuilt in order, and
   * the `needsUpdate` flag the callbacks raise, which is set by a block
   * without a key and never by a child without one.
   */
  method FixDescription(blocks: seq<Block>, keyAt: nat -> string, next: nat)
    returns (fixedDescription: seq<Block>, needsUpdate: bool, after: nat)
    ensures fixedDescription == FixedBlocks(blocks, keyAt, next)
    ensures needsUpdate <==> SomeBlockUnkeyed(blocks)
    ensures after == next + KeysUsed(blocks)
  {
    fixedDescription, needsUpdate, after := [], false, next;
    for i := 0 to |blocks|
      invariant fixedDescription == FixedBlocks(blocks[..i], keyAt, next)
      invariant needsUpdate <==> SomeBlockUnkeyed(blocks[..i])
      invariant after == next + KeysUsed(blocks[..i])
    {
      assert blocks[..i + 1] == blocks[..i] + [blocks[i]];
      fixedDescription, needsUpdate, after := PushBlock(blocks[..i], blocks[i], keyAt, next, fixedDescription, needsUpdate, after);
    }
    assert blocks[..|blocks|] == blocks;
  }

  /** `secondaryCategories.map(cat => ({...cat, _key: cat._key || generateKey()}))`, drawing keys from position `next` on. */
  function FixRefs(refs: seq<KeyedRef>, keyAt: nat -> string, next: nat): (r: seq<KeyedRef>)
    ensures |r| == |refs|
    ensures forall i :: 0 <= i < |refs| ==> RefFixed(refs[i], r[i])
  {
    if refs == [] then []
    else if HasKey(refs[0].key) then [refs[0]] + FixRefs(refs[1..], keyAt, next)
    else [refs[0].(key := Some(keyAt(next)))] + FixRefs(refs[1..], keyAt, next + 1)
  }

  // ---------------------------------------------------------------------------
  // One store
  // ---------------------------------------------------------------------------

  /** The keys the description pass draws; it runs whenever the description is present. */
  function DescriptionKeysUsed(store: KeyStore): nat {
    if store.description.Some? then KeysUsed(store.description.value) else 0
  }

  /** The description patch: queued only when some block lacks a key. */
  function DescriptionPatch(store: KeyStore, keyAt: nat -> string, next: nat): seq<Patch> {
    if store.description.Some? && SomeBlockUnkeyed(store.description.value) then
      [Patch(DescriptionPayload(FixedBlocks(store.description.value, keyAt, next)))]
    else []
  }

  /** The categories patch: queued exactly when some reference lacks a key. */
  function CategoriesPatch(store: KeyStore, keyAt: nat -> string, next: nat): seq<Patch> {
    if store.secondaryCategories.Some? && SomeRefUnkeyed(store.secondaryCategories.value) then
      [Patch(CategoriesPayload(FixRefs(store.secondaryCategories.value, keyAt, next)))]
    else []
  }

  /** Whether the store gets a commit: some block or some reference lacks a key. */
  predicate NeedsUpdate(store: KeyStore) {
    (store.description.Some? && SomeBlockUnkeyed(store.description.value))
    || (store.secondaryCategories.Some? && SomeRefUnkeyed(store.secondaryCategories.value))
  }

  /**
   * The loop body up to the commit: the patches queued for one store, the
   * description patch first, and the `needsUpdate` flag. The category keys
   * are drawn after the description's.
   */
  method QueuePatches(store: KeyStore, keyAt: nat -> string) returns (patches: seq<Patch>, needsUpdate: bool)
    ensures patches == DescriptionPatch(store, keyAt, 0) + CategoriesPatch(store, keyAt, DescriptionKeysUsed(store))
    ensures needsUpdate <==> NeedsUpdate(store)
    ensures needsUpdate <==> patches != []
  {
    var descriptionPatches, descriptionUnkeyed, next := DescriptionPass(store, keyAt);
    var categoryPatches, categoryUnkeyed := CategoriesPass(store, keyAt, next);
    patches := descriptionPatches + categoryPatches;
    needsUpdate := descriptionUnkeyed || categoryUnkeyed;
  }

  /** The description half of the loop body: the rebuilt blocks are queued when some block lacked a key. */
  method DescriptionPass(store: KeyStore, keyAt: nat -> string) returns (patches: seq<Patch>, needsUpdate: bool, next: nat)
    ensures patches == DescriptionPatch(store, keyAt, 0)
    ensures needsUpdate <==> store.description.Some? && SomeBlockUnkeyed(store.description.value)
    ensures needsUpdate <==> patches != []
    ensures next == DescriptionKeysUsed(store)
  {
    needsUpdate, patches, next := false, [], 0;
    if store.description.Some? {
      var fixedDescription;
      fixedDescription, needsUpdate, next := FixDescription(store.description.value, keyAt, 0);
      if needsUpdate {
        patches := [Patch(DescriptionPayload(fixedDescription))];
      }
    }
  }

  /** The categories half: the rebuilt references are queued when some reference lacks a key. */
  method CategoriesPass(store: KeyStore, keyAt: nat -> string, next: nat) returns (patches: seq<Patch>, hasMissing: bool)
    ensures patches == CategoriesPatch(store, keyAt, next)
    ensures hasMissing <==> store.secondaryCategories.Some? && SomeRefUnkeyed(store.secondaryCategories.value)
    ensures hasMissing <==> patches != []
  {
    hasMissing, patches := false, [];
    if store.secondaryCategories.Some? {
      var refs := store.secondaryCategories.value;
      hasMissing := exists i :: 0 <= i < |refs| && !HasKey(refs[i].key);
      if hasMissing {
        var fixedCategories := FixRefs(refs, keyAt, next);
        patches := [Patch(CategoriesPayload(fixedCategories))];
      }
    }
  }

  /** The queued patches of a store rebuild what they set: every block and every reference keyed, existing keys kept. */
  lemma QueuedPatchesFix(store: KeyStore, keyAt: nat -> string)
    ensures forall p :: p in DescriptionPatch(store, keyAt, 0) ==>
      p.assigns.DescriptionPayload? && |p.assigns.description| == |store.description.value|
      && forall i :: 0 <= i < |p.assigns.description| ==> BlockFixed(store.description.value[i], p.assigns.description[i])
    ensures forall p :: p in CategoriesPatch(store, keyAt, DescriptionKeysUsed(store)) ==>
      p.assigns.CategoriesPayload? && |p.assigns.secondaryCategories| == |store.secondaryCategories.value|
      && forall i :: 0 <= i < |p.assigns.secondaryCategories| ==> RefFixed(store.secondaryCategories.value[i], p.assigns.secondaryCategories[i])
  {
    if store.description.Some? {
      FixedBlocksFixed(store.description.value, keyAt, 0);
    }
  }

  /** A store whose blocks all have keys gets no description patch, however many children lack keys. */
  lemma ChildKeysAloneQueueNothing(store: KeyStore, keyAt: nat -> string)
    requires store.description.Some? && forall i :: 0 <= i < |store.description.value| ==> HasKey(store.description.value[i].key)
    ensures DescriptionPatch(store, keyAt, 0) == []
  {
  }

  // ---------------------------------------------------------------------------
  // Combining and committing
  // ---------------------------------------------------------------------------

  /** `patches.reduce((acc, patch) => ({...acc, ...patch}), acc)`, keeping only the `set` member: each spread overwrites it. */
  function CombineSet(acc: Option<Payload>, patches: seq<Patch>): Option<Payload>
    decreases |patches|
  {
    if patches == [] then acc else CombineSet(Some(patches[0].assigns), patches[1..])
  }

  /** The merged patch sets what the last queued patch sets, and nothing of the others. */
  lemma {:induction false} LastSetWins(acc: Option<Payload>, patches: seq<Patch>)
    requires patches != []
    ensures CombineSet(acc, patches) == Some(patches[|patches| - 1].assigns)
    decreases |patches|
  {
    if |patches| > 1 {
      LastSetWins(Some(patches[0].assigns), patches[1..]);
    }
  }

  /** When both patches are queued only the references are written: the rebuilt description is lost. */
  lemma DescriptionFixLost(store: KeyStore, keyAt: nat -> string)
    requires store.description.Some? && SomeBlockUnkeyed(store.description.value)
    requires store.secondaryCategories.Some? && SomeRefUnkeyed(store.secondaryCategories.value)
    ensures var patches := DescriptionPatch(store, keyAt, 0) + CategoriesPatch(store, keyAt, DescriptionKeysUsed(store));
      |patches| == 2
      && CombineSet(None, patches) == Some(CategoriesPayload(FixRefs(store.secondaryCategories.value, keyAt, DescriptionKeysUsed(store))))
  {
    var patches := DescriptionPatch(store, keyAt, 0) + CategoriesPatch(store, keyAt, DescriptionKeysUsed(store));
    LastSetWins(None, patches);
  }

  /** What is written for a store that needs an update: the merged `set`. */
  function WrittenSet(store: KeyStore, keyAt: nat -> string): Payload
    requires NeedsUpdate(store)
  {
    var patches := DescriptionPatch(store, keyAt, 0) + CategoriesPatch(store, keyAt, DescriptionKeysUsed(store));
    LastSetWins(None, patches);
    CombineSet(None, patches).value
  }

  /** A commit that went through: the store's id and what it set. */
  datatype Commit = Commit(id: string, assigns: Payload)

  /** The commit of one store: present exactly when the store needs an update and the commit does not throw. */
  function StoreCommit(store: KeyStore, keyAt: nat -> string, commitFails: bool): (r: seq<Commit>)
    ensures |r| <= 1
    ensures r != [] <==> NeedsUpdate(store) && !commitFails
    ensures forall c :: c in r ==> c.id == store.id
  {
    if NeedsUpdate(store) && !commitFails then [Commit(store.id, WrittenSet(store, keyAt))] else []
  }

  /** The commits that succeed among the first `n` stores, in order. */
  function Commits(stores: seq<KeyStore>, keys: seq<nat -> string>, commitFails: seq<bool>, n: nat): (r: seq<Commit>)
    requires n <= |stores| && |keys| == |stores| && |commitFails| == |stores|
    ensures |r| <= n
  {
    if n == 0 then []
    else
      Commits(stores, keys, commitFails, n - 1) + StoreCommit(stores[n - 1], keys[n - 1], commitFails[n - 1])
  }

  /**
   * `fixMissingKeys`: every store in turn; a store that needs an update has
   * its merged patch committed, and `fixedCount` counts the commits that do
   * not throw. A throwing commit is skipped and the loop goes on. `keys`
   * gives each store's key source and `commitFails` whether its commit throws.
   */
  method FixMissingKeys(stores: seq<KeyStore>, keys: seq<nat -> string>, commitFails: seq<bool>)
    returns (fixedCount: nat, written: seq<Commit>)
    requires |keys| == |stores| && |commitFails| == |stores|
    ensures written == Commits(stores, keys, commitFails, |stores|)
    ensures fixedCount == |written| && fixedCount <= |stores|
  {
    fixedCount, written := 0, [];
    for i := 0 to |stores|
      invariant written == Commits(stores, keys, commitFails, i)
      invariant fixedCount == |written|
    {
      var committed := FixStore(stores[i], keys[i], commitFails[i]);
      written := written + committed;
      fixedCount := fixedCount + |committed|;
    }
  }

  /**
   * The loop body for one store: queue the patches, and when an update is
   * needed merge them and commit. The result is the commit that went
   * through, if any.
   */
  method FixStore(store: KeyStore, keyAt: nat -> string, commitFails: bool) returns (committed: seq<Commit>)
    ensures committed == StoreCommit(store, keyAt, commitFails)
  {
    committed := [];
    var patches, needsUpdate := QueuePatches(store, keyAt);
    if needsUpdate && |patches| > 0 {
      var combined := CombineSet(None, patches);
      LastSetWins(None, patches);
      if !commitFails {
        committed := [Commit(store.id, combined.value)];
      }
    }
  }

  /** Only stores that lacked some block or reference key, and whose commit did not throw, are committed. */
  lemma {:induction false} CommitsNeedUpdate(stores: seq<KeyStore>, keys: seq<nat -> string>, commitFails: seq<bool>, n: nat)
    requires n <= |stores| && |keys| == |stores| && |commitFails| == |stores|
    ensures forall c :: c in Commits(stores, keys, commitFails, n) ==>
      exists i :: 0 <= i < n && stores[i].id == c.id && NeedsUpdate(stores[i]) && !commitFails[i]
  {
    if n > 0 {
      CommitsNeedUpdate(stores, keys, commitFails, n - 1);
      var earlier := Commits(stores, keys, commitFails, n - 1);
      var last := StoreCommit(stores[n - 1], keys[n - 1], commitFails[n - 1]);
      forall c: Commit | c in earlier + last
        ensures exists i :: 0 <= i < n && stores[i].id == c.id && NeedsUpdate(stores[i]) && !commitFails[i]
      {
        if c in earlier {
          var i :| 0 <= i < n - 1 && stores[i].id == c.id && NeedsUpdate(stores[i]) && !commitFails[i];
        } else {
          assert stores[n - 1].id == c.id;
        }
      }
    }
  }
}

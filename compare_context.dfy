/**
 * The compare reducer of `CompareContext`: add a copy at the end, remove by the product's
 * `_id` (not its `id`), replace the whole list, and ignore anything else.
 */
module CompareContext {
  import Lists
  import opened Products

  datatype CompareAction =
    | AddToCompare(payload: ProductType)
    | RemoveFromCompare(itemId: string)
    | LoadCompare(items: seq<ProductType>)
    | OtherAction(kind: string)

  datatype CompareState = CompareState(compareArray: seq<ProductType>)

  const InitialState := CompareState([])

  /** The filter predicate of REMOVE_FROM_COMPARE: it compares `_id`. */
  function NotDbId(itemId: string): ProductType -> bool
  {
    (item: ProductType) => item.dbId != itemId
  }

  function CompareReducer(state: CompareState, action: CompareAction): CompareState
  {
    match action
    case AddToCompare(p) => state.(compareArray := state.compareArray + [p])
    case RemoveFromCompare(itemId) => state.(compareArray := Lists.Filter(state.compareArray, NotDbId(itemId)))
    case LoadCompare(items) => state.(compareArray := items)
    case OtherAction(_) => state
  }

  /** Adding appends a copy at the end, even when the same `_id` is already listed. */
  lemma AddAppends(state: CompareState, p: ProductType)
    ensures var r := CompareReducer(state, AddToCompare(p)).compareArray;
      |r| == |state.compareArray| + 1 && r[..|state.compareArray|] == state.compareArray && r[|r| - 1] == p
  {
  }

  /**
   * Removal keys on `_id`: it drops every entry with that `_id`, whatever its `id`, keeps every
   * other entry, and keeps their order.
   */
  lemma {:induction false} RemoveFiltersDbId(state: CompareState, itemId: string)
    ensures var r := CompareReducer(state, RemoveFromCompare(itemId)).compareArray;
      (forall i :: 0 <= i < |r| ==> r[i].dbId != itemId && r[i] in state.compareArray)
      && (forall i :: 0 <= i < |state.compareArray| && state.compareArray[i].dbId != itemId ==>
            state.compareArray[i] in r)
      && Lists.IsSubsequence(r, state.compareArray)
  {
    Lists.FilterIsSubsequence(state.compareArray, NotDbId(itemId));
  }

  lemma {:induction false} RemoveIdempotent(state: CompareState, itemId: string)
    ensures var once := CompareReducer(state, RemoveFromCompare(itemId));
      CompareReducer(once, RemoveFromCompare(itemId)) == once
  {
    Lists.FilterIdempotent(state.compareArray, NotDbId(itemId));
  }

  /**
   * Adding a product and then removing its `_id` is the same as removing that `_id` from the
   * original list: no entry with the `_id` is left, and the others are untouched.
   */
  lemma {:induction false} AddThenRemove(state: CompareState, p: ProductType)
    ensures CompareReducer(CompareReducer(state, AddToCompare(p)), RemoveFromCompare(p.dbId))
         == CompareReducer(state, RemoveFromCompare(p.dbId))
  {
    Lists.FilterAppend(state.compareArray, [p], NotDbId(p.dbId));
    assert Lists.Filter([p], NotDbId(p.dbId)) == [];
  }

  lemma LoadReplaces(state: CompareState, items: seq<ProductType>)
    ensures CompareReducer(state, LoadCompare(items)).compareArray == items
  {
  }

  lemma OtherActionIsIdentity(state: CompareState, kind: string)
    ensures CompareReducer(state, OtherAction(kind)) == state
  {
  }
}

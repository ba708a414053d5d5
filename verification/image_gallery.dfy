/**
 * The product image gallery: one service item shown at a time, with
 * buttons that step to the next and previous item without wrapping. After
 * every change of position the shown item's key is published as the
 * selected key shared with the rest of the product feature.
 */
module ImageGallery {

  /** A service item as the gallery uses it: its image and the key it selects. */
  datatype ServiceItem = ServiceItem(imageUrl: string, selectedItemValue: string)

  /** The `next` updater: position 0 always moves on, the last position stays, any other moves on. */
  function NextOf(i: nat, length: nat): nat {
    if i == 0 then i + 1
    else if i == length - 1 then i
    else i + 1
  }

  /** The `prev` updater: position 0 stays, any other moves back. */
  function PrevOf(i: nat, length: nat): nat {
    if i == 0 then i
    else if i == length - 1 then i - 1
    else i - 1
  }

  /** With at least two items, next and previous clamp to the ends and never leave the list. */
  lemma StepsClamp(i: nat, length: nat)
    requires 2 <= length && i < length
    ensures NextOf(i, length) == if i + 1 < length - 1 then i + 1 else length - 1
    ensures PrevOf(i, length) == if i == 0 then 0 else i - 1
    ensures NextOf(i, length) < length && PrevOf(i, length) < length
  {
  }

  /** From the first item next always goes to position 1, which lies past the end of a one-item list. */
  lemma NextFromFirst(length: nat)
    ensures NextOf(0, length) == 1
    ensures length == 1 ==> NextOf(0, length) >= length
  {
  }

  /** Going back from the last of at least two items and forward again returns to it; forward then back returns from inside the list. */
  lemma StepsUndo(i: nat, length: nat)
    requires 2 <= length && i < length
    ensures i < length - 1 ==> PrevOf(NextOf(i, length), length) == i
    ensures i > 0 ==> NextOf(PrevOf(i, length), length) == i
  {
  }

  class Gallery {
    const items: seq<ServiceItem>
    var index: nat
    var selectedKey: string

    /** The position is on an item and the shared key is that item's. */
    ghost predicate Valid()
      reads this
    {
      index < |items| && selectedKey == items[index].selectedItemValue
    }

    /**
     * The first render shows the first item, and the effect publishes its
     * key over the key the shared context held before. With no items the
     * effect fails reading the first one, and nothing is published.
     */
    constructor (items: seq<ServiceItem>, contextKey: string)
      ensures this.items == items && index == 0
      ensures |items| > 0 ==> Valid()
      ensures |items| == 0 ==> !Valid() && selectedKey == contextKey
    {
      this.items := items;
      index := 0;
      selectedKey := if |items| > 0 then items[0].selectedItemValue else contextKey;
    }

    /**
     * The effect that follows a change of position: it publishes the shown
     * item's key, and it fails (`synced` false, nothing published) when the
     * position lies past the end.
     */
    method SyncSelectedKey() returns (synced: bool)
      modifies this
      ensures index == old(index)
      ensures synced <==> index < |items|
      ensures synced ==> Valid()
      ensures !synced ==> selectedKey == old(selectedKey)
    {
      if index < |items| {
        selectedKey := items[index].selectedItemValue;
        return true;
      }
      return false;
    }

    method Next() returns (synced: bool)
      modifies this
      ensures index == NextOf(old(index), |items|)
      ensures old(index) < |items| && |items| >= 2 ==> synced
      ensures synced <==> index < |items|
      ensures synced ==> Valid()
    {
      index := NextOf(index, |items|);
      synced := SyncSelectedKey();
    }

    method Prev() returns (synced: bool)
      modifies this
      ensures index == PrevOf(old(index), |items|)
      ensures old(index) < |items| ==> synced
      ensures synced <==> index < |items|
      ensures synced ==> Valid()
    {
      index := PrevOf(index, |items|);
      synced := SyncSelectedKey();
    }
  }
}

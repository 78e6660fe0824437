/**
 * Addresses (address/models.py): the address record, its display form,
 * and the rule Address.save applies to the `is_default` flags of the
 * owner's addresses. Rows are kept in primary-key order.
 */
module Addresses {
  import opened Wrappers
  import opened Catalog

  type AddressId = nat

  datatype Address = Address(
    user: UserId, addressLabel: string, country: string, state: string,
    city: string, street: string, phoneNumber: string, isDefault: bool)

  /** A stored address and its primary key. */
  datatype AddressRow = AddressRow(id: AddressId, address: Address)

  /** Address.__str__: "label - street, city, state, country". */
  function Display(a: Address): (s: string)
    ensures |s| == |a.addressLabel| + |a.street| + |a.city| + |a.state| + |a.country| + 9
    ensures s[..|a.addressLabel| + 3] == a.addressLabel + " - "
    ensures s[|s| - |a.country|..] == a.country
  {
    a.addressLabel + " - " + a.street + ", " + a.city + ", " + a.state + ", " + a.country
  }

  /** Primary keys strictly increase along the rows, and all lie below the next key to hand out. */
  predicate RowsValid(rows: seq<AddressRow>, nextId: AddressId)
  {
    && (forall i, j :: 0 <= i < j < |rows| ==> rows[i].id < rows[j].id)
    && (forall i :: 0 <= i < |rows| ==> rows[i].id < nextId)
  }

  predicate IsDefaultOf(row: AddressRow, user: UserId)
  {
    row.address.user == user && row.address.isDefault
  }

  /** The positions of the user's default addresses. */
  function Defaults(rows: seq<AddressRow>, user: UserId): set<nat>
  {
    set i: nat | i < |rows| && IsDefaultOf(rows[i], user)
  }

  /** How many default addresses the user has. */
  function DefaultCount(rows: seq<AddressRow>, user: UserId): nat
  {
    |Defaults(rows, user)|
  }

  /** Address.objects.filter(user=u, is_default=True).first(): the user's default with the smallest key. */
  function FirstDefault(rows: seq<AddressRow>, user: UserId): (r: Option<nat>)
    ensures r.None? <==> forall i :: 0 <= i < |rows| ==> !IsDefaultOf(rows[i], user)
    ensures r.Some? ==> r.value < |rows| && IsDefaultOf(rows[r.value], user)
    ensures r.Some? ==> forall k :: 0 <= k < r.value ==> !IsDefaultOf(rows[k], user)
  {
    if rows == [] then None
    else if IsDefaultOf(rows[0], user) then Some(0)
    else match FirstDefault(rows[1..], user)
      case None => None
      case Some(i) => Some(i + 1)
  }

  /** The row with key `id`, if any. */
  function FindRow(rows: seq<AddressRow>, id: AddressId): (r: Option<nat>)
    ensures r.None? <==> forall i :: 0 <= i < |rows| ==> rows[i].id != id
    ensures r.Some? ==> r.value < |rows| && rows[r.value].id == id
  {
    if rows == [] then None
    else if rows[0].id == id then Some(0)
    else match FindRow(rows[1..], id)
      case None => None
      case Some(i) => Some(i + 1)
  }

  // ---------------------------------------------------------------
  // Address.save (address/models.py:19-34)
  // ---------------------------------------------------------------

  /** The row is another default of the user than the one being saved (`exclude(pk=self.pk)`). */
  predicate IsOtherDefault(row: AddressRow, user: UserId, pk: Option<AddressId>)
  {
    IsDefaultOf(row, user) && pk != Some(row.id)
  }

  predicate HasOtherDefault(rows: seq<AddressRow>, user: UserId, pk: Option<AddressId>)
  {
    exists i :: 0 <= i < |rows| && IsOtherDefault(rows[i], user, pk)
  }

  /** The bulk update of step 2: every other default of the user loses its flag. */
  function ClearRow(row: AddressRow, user: UserId, pk: Option<AddressId>): AddressRow
  {
    if IsOtherDefault(row, user, pk) then row.(address := row.address.(isDefault := false)) else row
  }

  function ClearOthers(rows: seq<AddressRow>, user: UserId, pk: Option<AddressId>): (r: seq<AddressRow>)
    ensures |r| == |rows|
    ensures forall i :: 0 <= i < |rows| ==> r[i] == ClearRow(rows[i], user, pk)
  {
    seq(|rows|, i requires 0 <= i < |rows| => ClearRow(rows[i], user, pk))
  }

  /** super().save(): update the row with the instance's key, or insert a new row. */
  function Upsert(rows: seq<AddressRow>, pk: Option<AddressId>, newId: AddressId, a: Address): (r: seq<AddressRow>)
    ensures pk.Some? ==> |r| == |rows| && forall i :: 0 <= i < |rows| ==>
      r[i] == (if rows[i].id == pk.value then AddressRow(rows[i].id, a) else rows[i])
    ensures pk.None? ==> r == rows + [AddressRow(newId, a)]
  {
    if pk.None? then rows + [AddressRow(newId, a)]
    else seq(|rows|, i requires 0 <= i < |rows| => if rows[i].id == pk.value then AddressRow(rows[i].id, a) else rows[i])
  }

  /**
   * The flag the saved address ends with: what the caller asked for,
   * forced on when the user has no other default (which includes having
   * no address at all).
   */
  predicate SavedFlag(rows: seq<AddressRow>, pk: Option<AddressId>, a: Address)
  {
    a.isDefault || !HasOtherDefault(rows, a.user, pk)
  }

  /** The rows after Address.save of instance `a` with key `pk` (None for a new address). */
  function SaveRows(rows: seq<AddressRow>, pk: Option<AddressId>, newId: AddressId, a: Address): seq<AddressRow>
  {
    var flag := SavedFlag(rows, pk, a);
    Upsert(if flag then ClearOthers(rows, a.user, pk) else rows, pk, newId, a.(isDefault := flag))
  }

  /** What the caller guarantees: an update names an existing row of the same user (user is not writable). */
  predicate SaveTarget(rows: seq<AddressRow>, pk: Option<AddressId>, a: Address)
  {
    pk.Some? ==> exists i :: 0 <= i < |rows| && rows[i].id == pk.value && rows[i].address.user == a.user
  }

  lemma SingletonSet(s: set<nat>, k: nat)
    requires k in s && |s| <= 1
    ensures s == {k}
  {
    assert |s - {k}| == |s| - 1;
    assert s - {k} == {};
  }

  /** Clearing flags keeps every row's key. */
  lemma ClearKeepsKeys(rows: seq<AddressRow>, user: UserId, pk: Option<AddressId>)
    ensures forall i :: 0 <= i < |rows| ==> ClearOthers(rows, user, pk)[i].id == rows[i].id
  {
  }

  /** Rows with the same keys in the same places are valid together. */
  lemma RowsValidSameKeys(rows: seq<AddressRow>, rows': seq<AddressRow>, nextId: AddressId)
    requires RowsValid(rows, nextId) && |rows'| == |rows|
    requires forall i :: 0 <= i < |rows| ==> rows'[i].id == rows[i].id
    ensures RowsValid(rows', nextId)
  {
  }

  /** Writing a row keeps the keys increasing; an insert takes the next key and moves it on. */
  lemma UpsertKeepsRowsValid(rows: seq<AddressRow>, nextId: AddressId, pk: Option<AddressId>, a: Address)
    requires RowsValid(rows, nextId)
    ensures RowsValid(Upsert(rows, pk, nextId, a), if pk.Some? then nextId else nextId + 1)
  {
  }

  /** The index of the row a key names, in rows with increasing keys. */
  lemma KeyIndex(rows: seq<AddressRow>, nextId: AddressId, k: nat, id: AddressId)
    requires RowsValid(rows, nextId)
    requires k < |rows| && rows[k].id == id
    ensures forall i :: 0 <= i < |rows| && rows[i].id == id ==> i == k
  {
  }

  /**
   * The single-default invariant: if the user had at most one default
   * address before the save, they have exactly one after it.
   */
  lemma SaveKeepsOneDefault(rows: seq<AddressRow>, nextId: AddressId, pk: Option<AddressId>, a: Address)
    requires RowsValid(rows, nextId)
    requires SaveTarget(rows, pk, a)
    requires DefaultCount(rows, a.user) <= 1
    ensures DefaultCount(SaveRows(rows, pk, nextId, a), a.user) == 1
  {
    if pk.None? {
      InsertKeepsOneDefault(rows, nextId, a);
    } else {
      UpdateKeepsOneDefault(rows, nextId, pk.value, a);
    }
  }

  /** The single-default invariant for a new address. */
  lemma InsertKeepsOneDefault(rows: seq<AddressRow>, nextId: AddressId, a: Address)
    requires DefaultCount(rows, a.user) <= 1
    ensures DefaultCount(SaveRows(rows, None, nextId, a), a.user) == 1
  {
    var u := a.user;
    var r := SaveRows(rows, None, nextId, a);
    var k := |rows|;
    if SavedFlag(rows, None, a) {
      assert Defaults(r, u) == {k} by {
        forall i | 0 <= i < |r| ensures IsDefaultOf(r[i], u) <==> i == k {
          if i < k { assert r[i] == ClearRow(rows[i], u, None); }
        }
      }
    } else {
      var j :| 0 <= j < |rows| && IsOtherDefault(rows[j], u, None);
      SingletonSet(Defaults(rows, u), j);
      assert Defaults(r, u) == {j} by {
        forall i | 0 <= i < |r| ensures IsDefaultOf(r[i], u) <==> i == j {
          if i < k { assert r[i] == rows[i]; assert i in Defaults(rows, u) <==> IsDefaultOf(rows[i], u); }
        }
      }
    }
  }

  /** The single-default invariant for an update of the address with key id. */
  lemma UpdateKeepsOneDefault(rows: seq<AddressRow>, nextId: AddressId, id: AddressId, a: Address)
    requires RowsValid(rows, nextId)
    requires SaveTarget(rows, Some(id), a)
    requires DefaultCount(rows, a.user) <= 1
    ensures DefaultCount(SaveRows(rows, Some(id), nextId, a), a.user) == 1
  {
    var u := a.user;
    var pk := Some(id);
    var r := SaveRows(rows, pk, nextId, a);
    var k :| 0 <= k < |rows| && rows[k].id == id && rows[k].address.user == u;
    KeyIndex(rows, nextId, k, id);
    if SavedFlag(rows, pk, a) {
      assert Defaults(r, u) == {k} by {
        forall i | 0 <= i < |r| ensures IsDefaultOf(r[i], u) <==> i == k {
          if i != k { assert r[i] == ClearRow(rows[i], u, pk); }
        }
      }
    } else {
      var j :| 0 <= j < |rows| && IsOtherDefault(rows[j], u, pk);
      SingletonSet(Defaults(rows, u), j);
      assert Defaults(r, u) == {j} by {
        forall i | 0 <= i < |r| ensures IsDefaultOf(r[i], u) <==> i == j {
          if i != k { assert r[i] == rows[i]; assert i in Defaults(rows, u) <==> IsDefaultOf(rows[i], u); }
        }
      }
    }
  }

  /** A user's first address becomes their default, whatever flag it was saved with. */
  lemma FirstAddressBecomesDefault(rows: seq<AddressRow>, nextId: AddressId, a: Address)
    requires forall i :: 0 <= i < |rows| ==> rows[i].address.user != a.user
    ensures var r := SaveRows(rows, None, nextId, a);
      r[|rows|] == AddressRow(nextId, a.(isDefault := true))
  {
  }

  /** Saving a default address clears the flag on every other address of the user. */
  lemma DefaultSaveClearsOthers(rows: seq<AddressRow>, nextId: AddressId, pk: Option<AddressId>, a: Address)
    requires a.isDefault
    ensures var r := SaveRows(rows, pk, nextId, a);
      forall i :: 0 <= i < |r| && r[i].address.user == a.user && pk != Some(r[i].id) && i < |rows|
        ==> !r[i].address.isDefault
  {
  }

  /**
   * Saving a non-default address while another default exists keeps it
   * non-default and leaves every other row alone.
   */
  lemma NonDefaultSaveKeepsExisting(rows: seq<AddressRow>, nextId: AddressId, pk: Option<AddressId>, a: Address)
    requires !a.isDefault && HasOtherDefault(rows, a.user, pk)
    ensures SaveRows(rows, pk, nextId, a) == Upsert(rows, pk, nextId, a)
  {
  }

  /** Saving a non-default address when the user has no other default forces it to be the default. */
  lemma LoneAddressStaysDefault(rows: seq<AddressRow>, nextId: AddressId, pk: Option<AddressId>, a: Address)
    requires !HasOtherDefault(rows, a.user, pk)
    ensures SaveRows(rows, pk, nextId, a) == Upsert(ClearOthers(rows, a.user, pk), pk, nextId, a.(isDefault := true))
  {
  }

  /** Saving an address never touches the rows of another user. */
  lemma SaveLeavesOtherUsers(rows: seq<AddressRow>, nextId: AddressId, pk: Option<AddressId>, a: Address)
    requires RowsValid(rows, nextId)
    requires SaveTarget(rows, pk, a)
    ensures var r := SaveRows(rows, pk, nextId, a);
      |r| >= |rows| && forall i :: 0 <= i < |rows| && rows[i].address.user != a.user ==> r[i] == rows[i]
  {
    var flag := SavedFlag(rows, pk, a);
    var cleared := if flag then ClearOthers(rows, a.user, pk) else rows;
    var r := SaveRows(rows, pk, nextId, a);
    forall i | 0 <= i < |rows| && rows[i].address.user != a.user ensures r[i] == rows[i] {
      assert cleared[i] == rows[i];
      if pk.None? {
        assert r[i] == cleared[i];
      } else {
        var k :| 0 <= k < |rows| && rows[k].id == pk.value && rows[k].address.user == a.user;
        KeyIndex(rows, nextId, k, pk.value);
      }
    }
  }
}

/** The access-management table of src/UI/components/AccountAccessManagement/index.tsx:
    delegated wallets and the linked API key are shown as rows, and each row (or all of
    them, one after another) can be revoked. The SDK's unlink calls are recorded as the
    revocations performed; whether each succeeds is a parameter. */
module AccessManagement {
  import opened Wrappers
  import Toasts

  const API_KEY: string := "API Key"
  const WALLET_DELEGATE: string := "Wallet Delegate"

  /** SingleAccountManagementKey */
  datatype AccessKey = AccessKey(kind: string, address: string)

  /** The `select` of the API-key query: a missing or empty key gives no row. */
  function SelectApiKey(linkedKey: Option<string>): (r: Option<AccessKey>)
    ensures (linkedKey.None? || linkedKey == Some("")) <==> r.None?
    ensures r.Some? ==> r.value == AccessKey(API_KEY, linkedKey.value)
  {
    match linkedKey
    case None => None
    case Some(key) => if key == "" then None else Some(AccessKey(API_KEY, key))
  }

  /** The `select` of the wallet query: one delegate row per address, in order. */
  function SelectWallets(payload: seq<string>): (r: seq<AccessKey>)
    ensures |r| == |payload|
    ensures forall i :: 0 <= i < |r| ==> r[i] == AccessKey(WALLET_DELEGATE, payload[i])
  {
    seq(|payload|, i requires 0 <= i < |payload| => AccessKey(WALLET_DELEGATE, payload[i]))
  }

  /** `tableFinalData`: the wallet rows (none while the query has no data), then the key. */
  function TableFinalData(wallets: Option<seq<AccessKey>>, publicApiKey: Option<AccessKey>): (r: seq<AccessKey>)
    ensures var n := if wallets.Some? then |wallets.value| else 0;
      |r| == n + (if publicApiKey.Some? then 1 else 0)
    ensures wallets.Some? ==> r[..|wallets.value|] == wallets.value
    ensures publicApiKey.Some? ==> r[|r| - 1] == publicApiKey.value
  {
    var finalWallets := if wallets.Some? then wallets.value else [];
    if publicApiKey.Some? then finalWallets + [publicApiKey.value] else finalWallets
  }

  /** The table built from the two queries: the delegates in order, the API key last, and
      exactly one row of type "API Key" when a key is linked. */
  lemma TableRows(payload: seq<string>, linkedKey: Option<string>)
    ensures var rows := TableFinalData(Some(SelectWallets(payload)), SelectApiKey(linkedKey));
      (forall i :: 0 <= i < |payload| ==> rows[i] == AccessKey(WALLET_DELEGATE, payload[i])) &&
      (SelectApiKey(linkedKey).Some? ==> |rows| == |payload| + 1 && rows[|payload|].kind == API_KEY) &&
      (SelectApiKey(linkedKey).None? ==> |rows| == |payload|) &&
      (forall i :: 0 <= i < |payload| ==> rows[i].kind != API_KEY)
  {
    var rows := TableFinalData(Some(SelectWallets(payload)), SelectApiKey(linkedKey));
    assert WALLET_DELEGATE[0] != API_KEY[0];
    forall i | 0 <= i < |payload|
      ensures rows[i] == AccessKey(WALLET_DELEGATE, payload[i])
    {
      assert rows[..|payload|][i] == rows[i];
    }
  }

  /** The empty-state message is shown exactly when the table has no rows. */
  predicate EmptyStateShown(rows: seq<AccessKey>) {
    |rows| == 0
  }

  /** An empty table: no wallets and no key linked. */
  lemma EmptyStateExactlyWhenNothingLinked(wallets: Option<seq<AccessKey>>, publicApiKey: Option<AccessKey>)
    ensures EmptyStateShown(TableFinalData(wallets, publicApiKey)) <==>
            (wallets.None? || wallets.value == []) && publicApiKey.None?
  {
  }

  /** The SDK call a revocation makes. */
  datatype Revocation = UnlinkRsaKey | UnlinkWallet(address: string)

  /** `handleRevoke`: the RSA key for an "API Key" row, the row's address otherwise. */
  function RevocationFor(row: AccessKey): (r: Revocation)
    ensures row.kind == API_KEY <==> r == UnlinkRsaKey
    ensures row.kind != API_KEY ==> r == UnlinkWallet(row.address)
  {
    if row.kind == API_KEY then UnlinkRsaKey else UnlinkWallet(row.address)
  }

  /** The calls made for `rows`, one per row, in order. */
  function Revocations(rows: seq<AccessKey>): (r: seq<Revocation>)
    ensures |r| == |rows|
    ensures forall i :: 0 <= i < |rows| ==> r[i] == RevocationFor(rows[i])
  {
    if rows == [] then [] else Revocations(rows[..|rows| - 1]) + [RevocationFor(rows[|rows| - 1])]
  }

  /** A failing wallet unlink throws out of `revokeAll`; a failing key unlink does not. */
  predicate Aborts(row: AccessKey, ok: bool) {
    row.kind != API_KEY && !ok
  }

  /** The first row from `from` on whose revocation throws, if any. */
  function FirstAbort(rows: seq<AccessKey>, ok: nat -> bool, from: nat): (r: Option<nat>)
    requires from <= |rows|
    ensures r.Some? ==> from <= r.value < |rows| && Aborts(rows[r.value], ok(r.value)) &&
                        forall j :: from <= j < r.value ==> !Aborts(rows[j], ok(j))
    ensures r.None? ==> forall j :: from <= j < |rows| ==> !Aborts(rows[j], ok(j))
    decreases |rows| - from
  {
    if from == |rows| then None
    else if Aborts(rows[from], ok(from)) then Some(from)
    else FirstAbort(rows, ok, from + 1)
  }

  /** How many rows `revokeAll` gets to: all of them, or up to and including the first
      that throws. */
  function Reached(rows: seq<AccessKey>, ok: nat -> bool): (n: nat)
    ensures n <= |rows|
  {
    match FirstAbort(rows, ok, 0)
    case None => |rows|
    case Some(k) => k + 1
  }

  const KEY_REVOKED_TITLE: string := "API Key revoked"
  const KEY_REVOKED_MESSAGE: string := "Successfully revoked API KEY"

  /** The success toasts of the key revocations among the first `n` rows. */
  function KeyToasts(rows: seq<AccessKey>, ok: nat -> bool, toastId: int, n: nat): (r: seq<Toasts.ToastItem>)
    requires n <= |rows|
    ensures |r| <= n
  {
    if n == 0 then []
    else
      var last := if rows[n - 1].kind == API_KEY && ok(n - 1)
        then [Toasts.SuccessToast(toastId, KEY_REVOKED_TITLE, KEY_REVOKED_MESSAGE)] else [];
      KeyToasts(rows, ok, toastId, n - 1) + last
  }

  /** The rows among the first `n` whose key unlink succeeds. */
  function RevokedKeys(rows: seq<AccessKey>, ok: nat -> bool, n: nat): set<nat>
    requires n <= |rows|
  {
    set j: nat | j < n && rows[j].kind == API_KEY && ok(j)
  }

  /** Extending the prefix by one row adds that row exactly when its key unlink succeeds. */
  lemma RevokedKeysStep(rows: seq<AccessKey>, ok: nat -> bool, n: nat)
    requires 0 < n <= |rows|
    ensures RevokedKeys(rows, ok, n) ==
            RevokedKeys(rows, ok, n - 1) + (if rows[n - 1].kind == API_KEY && ok(n - 1) then {n - 1} else {})
  {
    var before, after := RevokedKeys(rows, ok, n - 1), RevokedKeys(rows, ok, n);
    forall j: nat | j in after && j < n - 1 ensures j in before {
    }
  }

  /** There is one key toast per successful key unlink among the rows that ran. */
  lemma {:induction false} KeyToastsCountRevokedKeys(rows: seq<AccessKey>, ok: nat -> bool, toastId: int, n: nat)
    requires n <= |rows|
    ensures |KeyToasts(rows, ok, toastId, n)| == |RevokedKeys(rows, ok, n)|
  {
    if n == 0 {
      assert RevokedKeys(rows, ok, 0) == {};
    } else {
      KeyToastsCountRevokedKeys(rows, ok, toastId, n - 1);
      RevokedKeysStep(rows, ok, n);
      assert n - 1 !in RevokedKeys(rows, ok, n - 1);
    }
  }

  /** When no unlink fails, `revokeAll` revokes every row exactly once, in table order. */
  lemma {:induction false} RevokeAllReachesEveryRow(rows: seq<AccessKey>, ok: nat -> bool)
    requires forall j :: 0 <= j < |rows| ==> ok(j)
    ensures Reached(rows, ok) == |rows|
    ensures Revocations(rows[..Reached(rows, ok)]) == Revocations(rows)
  {
    assert rows[..|rows|] == rows;
  }

  /** A failing wallet unlink stops the run: no later row is revoked. */
  lemma RevokeAllStopsAtFailure(rows: seq<AccessKey>, ok: nat -> bool, k: nat)
    requires k < |rows| && Aborts(rows[k], ok(k))
    ensures Reached(rows, ok) <= k + 1
  {
  }

  class AccessTable {
    const toasts: Toasts.ToastStore
    /** The unlink calls made so far, in order, whether or not they succeeded. */
    var revocations: seq<Revocation>

    constructor (toasts: Toasts.ToastStore)
      ensures this.toasts == toasts && revocations == []
    {
      this.toasts := toasts;
      revocations := [];
    }

    /** `handleRevoke` with the unlink succeeding iff `ok`. A failed key unlink is logged and
        swallowed; a failed wallet unlink propagates (`thrown`). */
    method HandleRevoke(row: AccessKey, ok: bool, toastId: int) returns (thrown: bool)
      modifies this, toasts
      ensures revocations == old(revocations) + [RevocationFor(row)]
      ensures thrown <==> Aborts(row, ok)
      ensures toasts.toastList == old(toasts.toastList) +
        (if row.kind == API_KEY && ok then [Toasts.SuccessToast(toastId, KEY_REVOKED_TITLE, KEY_REVOKED_MESSAGE)] else [])
    {
      thrown := false;
      if row.kind == API_KEY {
        revocations := revocations + [UnlinkRsaKey];
        if ok {
          toasts.ShowSuccessToast(toastId, KEY_REVOKED_TITLE, KEY_REVOKED_MESSAGE);
        }
      } else {
        revocations := revocations + [UnlinkWallet(row.address)];
        thrown := !ok;
      }
    }

    /** `revokeAll`: the rows in order, the `k`-th unlink succeeding iff `ok(k)`, stopping
        at the first revocation that throws. */
    method RevokeAll(rows: seq<AccessKey>, ok: nat -> bool, toastId: int) returns (thrown: bool)
      modifies this, toasts
      ensures thrown <==> FirstAbort(rows, ok, 0).Some?
      ensures revocations == old(revocations) + Revocations(rows[..Reached(rows, ok)])
      ensures toasts.toastList == old(toasts.toastList) + KeyToasts(rows, ok, toastId, Reached(rows, ok))
    {
      thrown := false;
      var i := 0;
      while i < |rows| && !thrown
        invariant 0 <= i <= |rows|
        invariant !thrown ==> FirstAbort(rows, ok, i) == FirstAbort(rows, ok, 0)
        invariant thrown ==> 0 < i && FirstAbort(rows, ok, 0) == Some(i - 1)
        invariant revocations == old(revocations) + Revocations(rows[..i])
        invariant toasts.toastList == old(toasts.toastList) + KeyToasts(rows, ok, toastId, i)
      {
        RunStep(rows, ok, toastId, i);
        thrown := HandleRevoke(rows[i], ok(i), toastId);
        i := i + 1;
      }
      assert Reached(rows, ok) == i;
    }
  }

  /** One more row run adds its revocation and, for a key that unlinks, its toast. */
  lemma RunStep(rows: seq<AccessKey>, ok: nat -> bool, toastId: int, i: nat)
    requires i < |rows|
    ensures Revocations(rows[..i + 1]) == Revocations(rows[..i]) + [RevocationFor(rows[i])]
    ensures KeyToasts(rows, ok, toastId, i + 1) == KeyToasts(rows, ok, toastId, i) +
      (if rows[i].kind == API_KEY && ok(i) then [Toasts.SuccessToast(toastId, KEY_REVOKED_TITLE, KEY_REVOKED_MESSAGE)] else [])
  {
    assert rows[..i + 1][..i] == rows[..i];
  }

  /** The first row that throws, when all earlier ones did not, is the one `FirstAbort` finds. */
  lemma FirstAbortIsFirst(rows: seq<AccessKey>, ok: nat -> bool, i: nat)
    requires i < |rows| && Aborts(rows[i], ok(i))
    requires forall j :: 0 <= j < i ==> !Aborts(rows[j], ok(j))
    ensures FirstAbort(rows, ok, 0) == Some(i)
  {
    var r := FirstAbort(rows, ok, 0);
    assert r.Some?;
    assert !(r.value < i) && !(i < r.value);
  }
}

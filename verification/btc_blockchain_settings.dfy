/** The Bitcoin-family restore-source settings screen's service: it edits a
    restore mode for one blockchain, publishes whether the edit differs from
    the stored mode, and writes the mode back only when it does. */
module BtcBlockchainSettings {
  import Kit

  /** Where a Bitcoin-family wallet syncs from when it is restored. */
  datatype BtcRestoreMode = Api | Blockchair | Hybrid | Blockchain

  /** The BTC blockchain manager's store of restore modes, one per blockchain
      type. A type with no saved entry reads as the manager's fallback mode. */
  datatype Manager = Manager(saved: map<Kit.BlockchainType, BtcRestoreMode>, fallback: BtcRestoreMode)

  /** The manager's `restoreMode(blockchainType:)`. */
  function StoredMode(m: Manager, t: Kit.BlockchainType): BtcRestoreMode {
    if t in m.saved then m.saved[t] else m.fallback
  }

  /** The manager's `save(restoreMode:blockchainType:)`: afterwards `t` reads as
      `mode` and every other type reads as before. */
  function SaveMode(m: Manager, mode: BtcRestoreMode, t: Kit.BlockchainType): (r: Manager)
    ensures StoredMode(r, t) == mode
    ensures forall u :: u != t ==> StoredMode(r, u) == StoredMode(m, u)
    ensures r.saved.Keys == m.saved.Keys + {t}
    ensures forall u :: u in m.saved && u != t ==> r.saved[u] == m.saved[u]
  {
    Manager(m.saved[t := mode], m.fallback)
  }

  /** Every value the has-changes relay has held, oldest first. A behaviour
      relay always holds a value, so the history is never empty. */
  type History = h: seq<bool> | |h| > 0 witness [false]

  datatype Service = Service(blockchain: Kit.Blockchain, restoreMode: BtcRestoreMode, hasChangesHistory: History)

  /** The has-changes flag a subscriber currently sees. */
  function HasChanges(s: Service): bool {
    s.hasChangesHistory[|s.hasChangesHistory| - 1]
  }

  /** Creating the service loads the stored mode. Swift does not run a
      property's `didSet` inside the class's own initializer, so the relay
      still holds its initial `false`. */
  function Init(blockchain: Kit.Blockchain, m: Manager): (s: Service)
    ensures s.blockchain == blockchain
    ensures s.restoreMode == StoredMode(m, blockchain.blockchainType)
    ensures s.hasChangesHistory == [false] && !HasChanges(s)
  {
    Service(blockchain, StoredMode(m, blockchain.blockchainType), [false])
  }

  /** Assigning `restoreMode`: its `didSet` re-reads the stored mode and
      publishes exactly one value, whether the two differ. The assignment
      publishes even when the mode does not change. */
  function SetRestoreMode(s: Service, m: Manager, mode: BtcRestoreMode): (r: Service)
    ensures r.blockchain == s.blockchain && r.restoreMode == mode
    ensures |r.hasChangesHistory| == |s.hasChangesHistory| + 1
    ensures r.hasChangesHistory[..|s.hasChangesHistory|] == s.hasChangesHistory
    ensures HasChanges(r) <==> mode != StoredMode(m, s.blockchain.blockchainType)
  {
    var changed := mode != StoredMode(m, s.blockchain.blockchainType);
    Service(s.blockchain, mode, s.hasChangesHistory + [changed])
  }

  /** `save()`: the manager is written only when the edited mode differs from
      the stored one, and only under this service's blockchain type. */
  function Save(s: Service, m: Manager): (r: Manager)
    ensures s.restoreMode == StoredMode(m, s.blockchain.blockchainType) ==> r == m
    ensures StoredMode(r, s.blockchain.blockchainType) == s.restoreMode
    ensures forall u :: u != s.blockchain.blockchainType ==> StoredMode(r, u) == StoredMode(m, u)
    ensures forall u :: u in m.saved && u != s.blockchain.blockchainType ==> u in r.saved && r.saved[u] == m.saved[u]
    ensures r.saved.Keys <= m.saved.Keys + {s.blockchain.blockchainType}
    ensures r.fallback == m.fallback
  {
    var t := s.blockchain.blockchainType;
    if s.restoreMode != StoredMode(m, t) then SaveMode(m, s.restoreMode, t) else m
  }

  /** The flag a subscriber sees agrees with the store. */
  predicate Synced(s: Service, m: Manager) {
    HasChanges(s) <==> s.restoreMode != StoredMode(m, s.blockchain.blockchainType)
  }

  /** A sequence of edits made while the store stays as it is. */
  function Edit(s: Service, m: Manager, modes: seq<BtcRestoreMode>): Service
    decreases |modes|
  {
    if |modes| == 0 then s else Edit(SetRestoreMode(s, m, modes[0]), m, modes[1..])
  }

  /** Editing back to the stored mode clears the flag. */
  lemma RevertClearsChanges(s: Service, m: Manager)
    ensures !HasChanges(SetRestoreMode(s, m, StoredMode(m, s.blockchain.blockchainType)))
  {
  }

  /** From creation on, whatever the edits, the flag agrees with the store and
      exactly one value has been published per edit. */
  lemma {:induction false} EditsStaySynced(blockchain: Kit.Blockchain, m: Manager, modes: seq<BtcRestoreMode>)
    ensures var s := Edit(Init(blockchain, m), m, modes);
            Synced(s, m) && |s.hasChangesHistory| == 1 + |modes|
  {
    EditKeepsSynced(Init(blockchain, m), m, modes);
  }

  lemma {:induction false} EditKeepsSynced(s: Service, m: Manager, modes: seq<BtcRestoreMode>)
    requires Synced(s, m)
    ensures var r := Edit(s, m, modes);
            Synced(r, m) && r.blockchain == s.blockchain
            && |r.hasChangesHistory| == |s.hasChangesHistory| + |modes|
            && (|modes| == 0 ==> r.restoreMode == s.restoreMode)
            && (|modes| > 0 ==> r.restoreMode == modes[|modes| - 1])
    decreases |modes|
  {
    if |modes| > 0 {
      var next := SetRestoreMode(s, m, modes[0]);
      EditKeepsSynced(next, m, modes[1..]);
      if |modes| > 1 {
        assert modes[1..][|modes[1..]| - 1] == modes[|modes| - 1];
      }
    }
  }

  /** Saving twice writes no more than saving once. */
  lemma SaveIdempotent(s: Service, m: Manager)
    ensures Save(s, Save(s, m)) == Save(s, m)
  {
  }

  /** After a save, editing to the saved mode reports no changes. */
  lemma SaveThenNoChanges(s: Service, m: Manager)
    ensures !HasChanges(SetRestoreMode(s, Save(s, m), s.restoreMode))
  {
  }

  /** `save()` does not touch the has-changes relay: a save that writes leaves
      the flag saying "changed" although the store now agrees with the edit. */
  lemma SaveLeavesFlagStale(s: Service, m: Manager)
    requires Synced(s, m) && HasChanges(s)
    ensures !Synced(s, Save(s, m))
  {
  }
}

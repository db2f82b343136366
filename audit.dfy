/** The audit stream: a list of events kept newest first in storage and
    capped at 1000 entries. The event timestamp is an input. */
module Audit {
  import opened Wrappers
  import opened Seqs
  import opened Json
  import opened Storage

  const AuditKey: string := "vs_audit_stream_v1"
  const Cap: nat := 1000
  const DefaultUser: string := "You"

  datatype AuditEvent = AuditEvent(timestamp: string, user: string, action: string, details: string)

  function ToJson(ev: AuditEvent): Json {
    Obj(map["timestamp" := Str(ev.timestamp), "user" := Str(ev.user),
            "action" := Str(ev.action), "details" := Str(ev.details)])
  }

  /** The stored list; missing, empty, unreadable or non-array storage reads as []. */
  function LoadAudit(slots: map<string, Slot>): (r: seq<Json>)
    ensures !HoldsArray(slots, AuditKey) ==> r == []
  {
    LoadArray(slots, AuditKey)
  }

  /** The event an append records; `user` defaults to "You". */
  function MakeEvent(timestamp: string, action: string, details: string, user: Option<string>): (ev: AuditEvent)
    ensures user.None? ==> ev.user == DefaultUser
    ensures user.Some? ==> ev.user == user.value
    ensures ev.action == action && ev.details == details && ev.timestamp == timestamp
  {
    AuditEvent(timestamp, user.GetOr(DefaultUser), action, details)
  }

  /** `[ev, ...log].slice(0, 1000)` */
  function Appended(log: seq<Json>, ev: Json): (r: seq<Json>)
    ensures 1 <= |r| <= Cap && r[0] == ev
  {
    Take([ev] + log, Cap)
  }

  /** The new event is first, the log grows by one up to the cap, and the
      older events follow in their order. */
  lemma AppendedShape(log: seq<Json>, ev: Json)
    ensures var r := Appended(log, ev);
      && |r| == (if |log| + 1 < Cap then |log| + 1 else Cap)
      && r[0] == ev
      && r[1..] == log[..|r| - 1]
  {
    var r := Appended(log, ev);
    assert r == ([ev] + log)[..|r|];
    assert r[1..] == ([ev] + log)[1..|r|];
    assert ([ev] + log)[1..|r|] == log[..|r| - 1];
  }

  /** At the cap an append drops only the oldest event. */
  lemma AppendedAtCap(log: seq<Json>, ev: Json)
    requires |log| == Cap
    ensures Appended(log, ev) == [ev] + log[..Cap - 1]
  {
    AppendedShape(log, ev);
    var r := Appended(log, ev);
    assert r == [r[0]] + r[1..];
  }

  /** `appendAudit`: store the capped list with the new event at its head and
      return that event. */
  method AppendAudit(store: LocalStorage, timestamp: string, action: string, details: string, user: Option<string>)
    returns (ev: AuditEvent)
    modifies store
    ensures ev == MakeEvent(timestamp, action, details, user)
    ensures store.slots == old(store.slots)[AuditKey := Doc(Arr(Appended(LoadAudit(old(store.slots)), ToJson(ev))))]
    ensures LoadAudit(store.slots) == Appended(LoadAudit(old(store.slots)), ToJson(ev))
  {
    ev := MakeEvent(timestamp, action, details, user);
    var list := Appended(LoadAudit(store.slots), ToJson(ev));
    store.SetItem(AuditKey, Arr(list));
  }

  /** `clearAudit`: the key is removed, so the log reads as empty. */
  method ClearAudit(store: LocalStorage)
    modifies store
    ensures store.slots == old(store.slots) - {AuditKey}
    ensures LoadAudit(store.slots) == []
  {
    store.RemoveItem(AuditKey);
  }
}

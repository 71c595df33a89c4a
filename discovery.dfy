/** Which session in a getSessions reply the client takes as its peer: the first
    entry, in scan order, whose worldURL is exactly the URL it was asked to find. */
module Discovery {
  import opened Messages

  /** An entry advertises `url`; an entry without a worldURL never matches. */
  predicate EntryMatches(e: Entry, url: string) {
    "worldURL" in e && e["worldURL"] == url
  }

  /** Session j of tracker group i exists and advertises `url`. */
  predicate MatchAt(table: SessionTable, url: string, i: int, j: int) {
    0 <= i < |table| && 0 <= j < |table[i].1| && EntryMatches(table[i].1[j].1, url)
  }

  /** Position (i, j) comes before position p in the nested scan. */
  predicate Before(i: int, j: int, p: (nat, nat)) {
    i < p.0 || (i == p.0 && j < p.1)
  }

  /** Index of the first session in `group` that advertises `url`. */
  function LocateInGroup(group: SessionGroup, url: string): (r: Option<nat>)
    ensures r.Some? ==>
      r.value < |group| && EntryMatches(group[r.value].1, url) &&
      forall j :: 0 <= j < r.value ==> !EntryMatches(group[j].1, url)
    ensures r.None? ==> forall j :: 0 <= j < |group| ==> !EntryMatches(group[j].1, url)
  {
    if group == [] then None
    else if EntryMatches(group[0].1, url) then Some(0)
    else match LocateInGroup(group[1..], url)
      case None => None
      case Some(j) => Some(j + 1)
  }

  /** Position (group, session) of the first match in the whole table. */
  function Locate(table: SessionTable, url: string): (r: Option<(nat, nat)>)
    ensures r.Some? ==>
      MatchAt(table, url, r.value.0, r.value.1) &&
      forall i, j :: Before(i, j, r.value) ==> !MatchAt(table, url, i, j)
    ensures r.None? ==> forall i, j :: !MatchAt(table, url, i, j)
  {
    if table == [] then None
    else match LocateInGroup(table[0].1, url)
      case Some(j) => Some((0, j))
      case None =>
        assert forall i, j | 1 <= i :: MatchAt(table, url, i, j) == MatchAt(table[1..], url, i - 1, j) by {
          forall i, j | 1 <= i ensures MatchAt(table, url, i, j) == MatchAt(table[1..], url, i - 1, j) {
            if i < |table| {
              assert table[i] == table[1..][i - 1];
            }
          }
        }
        match Locate(table[1..], url)
        case None => None
        case Some(p) => Some((p.0 + 1, p.1))
  }

  /** The session id the discovery handler binds, if any. */
  function PeerIn(table: SessionTable, url: string): (r: Option<string>)
    ensures r.Some? <==> exists i, j :: MatchAt(table, url, i, j)
  {
    match Locate(table, url)
    case None => None
    case Some(p) => Some(table[p.0].1[p.1].0)
  }

  /** With exactly one advertising entry, that entry's session is the peer,
      whatever non-matching entries and empty groups surround it. */
  lemma PeerInSingleMatch(table: SessionTable, url: string, i: nat, j: nat)
    requires MatchAt(table, url, i, j)
    requires forall i', j' :: MatchAt(table, url, i', j') ==> i' == i && j' == j
    ensures PeerIn(table, url) == Some(table[i].1[j].0)
  {
  }

  /** Whatever follows the first match in scan order cannot change the result. */
  lemma {:induction false} PeerInIgnoresLaterGroups(table: SessionTable, more: SessionTable, url: string)
    requires PeerIn(table, url).Some?
    ensures PeerIn(table + more, url) == PeerIn(table, url)
  {
    var p := Locate(table, url).value;
    var q := Locate(table + more, url);
    assert MatchAt(table + more, url, p.0, p.1);
    assert q.Some?;
    if Before(q.value.0, q.value.1, p) {
      assert MatchAt(table, url, q.value.0, q.value.1);
    }
  }
}

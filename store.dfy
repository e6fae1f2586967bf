/** The link-store and campaign-meta operations the pipeline calls, as
    functions on the persistent state. The store's own code is not part of
    the model; these say only what each call is taken to change. */
module LinkStore {
  import opened Model

  /** `update_link($id, ['status' => $st])`: the row with that id, if there
      is one, takes the new status; nothing else changes. */
  function WithStatus(links: map<LinkId, Link>, id: LinkId, st: Status): (r: map<LinkId, Link>)
    ensures r.Keys == links.Keys
    ensures forall other :: other in links && other != id ==> r[other] == links[other]
  {
    if id in links then links[id := links[id].(status := st)] else links
  }

  /** `update_link($id, ['status' => 'success', 'meta' => ''])`. */
  function WithSuccess(links: map<LinkId, Link>, id: LinkId): (r: map<LinkId, Link>)
    ensures r.Keys == links.Keys
    ensures forall other :: other in links && other != id ==> r[other] == links[other]
  {
    if id in links then links[id := links[id].(status := Success, meta := "")] else links
  }

  /** `wpcp_get_post_meta($campaign_id, $page_key, 0)`. */
  function PageNumber(s: State, c: CampaignId, key: string): int {
    if (c, key) in s.cursor then s.cursor[(c, key)] else 0
  }

  /** The row a batch entry becomes once stored. */
  function NewLink(id: LinkId, row: LinkRow): Link {
    Link(id, row.url, row.title, row.keyword, row.campaign, Pending, "")
  }

  /** `inset_links($links)`: each entry in order is stored under the next
      id when the store admits it. The result is the new table and the new
      next id; the number stored is the difference of the ids. */
  function InsertAll(links: map<LinkId, Link>, next: LinkId, rows: seq<LinkRow>,
                     admits: (map<LinkId, Link>, LinkRow) -> bool): (r: (map<LinkId, Link>, LinkId))
    ensures next <= r.1 <= next + |rows|
    decreases |rows|
  {
    if rows == [] then (links, next)
    else if admits(links, rows[0]) then
      InsertAll(links[next := NewLink(next, rows[0])], next + 1, rows[1..], admits)
    else
      InsertAll(links, next, rows[1..], admits)
  }

  /** What inserting a batch does to the table: rows under ids below
      `next` are kept as they were, each id handed out is a new pending row
      under its own id, and no other id appears. */
  lemma {:induction false} InsertAllKeeps(links: map<LinkId, Link>, next: LinkId, rows: seq<LinkRow>,
                                          admits: (map<LinkId, Link>, LinkRow) -> bool)
    ensures var r := InsertAll(links, next, rows, admits);
      && (forall id :: id in links && id < next ==> id in r.0 && r.0[id] == links[id])
      && (forall id :: next <= id < r.1 ==> id in r.0 && r.0[id].id == id && r.0[id].status == Pending)
      && (forall id :: id in r.0 && id !in links ==> next <= id < r.1)
    decreases |rows|
  {
    if rows != [] {
      var r := InsertAll(links, next, rows, admits);
      if admits(links, rows[0]) {
        var links' := links[next := NewLink(next, rows[0])];
        InsertAllKeeps(links', next + 1, rows[1..], admits);
        assert r == InsertAll(links', next + 1, rows[1..], admits);
        assert next in r.0 && r.0[next] == NewLink(next, rows[0]);
      } else {
        InsertAllKeeps(links, next, rows[1..], admits);
        assert r == InsertAll(links, next, rows[1..], admits);
      }
    }
  }

  /** The rows of a batch the store admits, in batch order. */
  function Admitted(links: map<LinkId, Link>, next: LinkId, rows: seq<LinkRow>,
                    admits: (map<LinkId, Link>, LinkRow) -> bool): seq<LinkRow>
    decreases |rows|
  {
    if rows == [] then []
    else if admits(links, rows[0]) then
      [rows[0]] + Admitted(links[next := NewLink(next, rows[0])], next + 1, rows[1..], admits)
    else
      Admitted(links, next, rows[1..], admits)
  }

  /** `a` is `b` with some elements left out, the rest in order. */
  predicate IsSubsequence<T(==)>(a: seq<T>, b: seq<T>)
    decreases |b|
  {
    a == [] || (b != [] && (IsSubsequence(a, b[1..]) || (a[0] == b[0] && IsSubsequence(a[1..], b[1..]))))
  }

  lemma {:induction false} SubsequenceMembers<T>(a: seq<T>, b: seq<T>)
    requires IsSubsequence(a, b)
    ensures forall x :: x in a ==> x in b
    decreases |b|
  {
    if a != [] {
      if IsSubsequence(a, b[1..]) {
        SubsequenceMembers(a, b[1..]);
      } else {
        SubsequenceMembers(a[1..], b[1..]);
        assert a == [a[0]] + a[1..];
      }
    }
  }

  /** The rows the store admits are the batch with some rows left out,
      the rest in order. */
  lemma {:induction false} AdmittedSubsequence(links: map<LinkId, Link>, next: LinkId, rows: seq<LinkRow>,
                                               admits: (map<LinkId, Link>, LinkRow) -> bool)
    ensures IsSubsequence(Admitted(links, next, rows, admits), rows)
    decreases |rows|
  {
    if rows != [] {
      if admits(links, rows[0]) {
        var links' := links[next := NewLink(next, rows[0])];
        AdmittedSubsequence(links', next + 1, rows[1..], admits);
        var stored := Admitted(links, next, rows, admits);
        assert stored[0] == rows[0] && stored[1..] == Admitted(links', next + 1, rows[1..], admits);
      } else {
        AdmittedSubsequence(links, next, rows[1..], admits);
      }
    }
  }

  /** When the store admits every row, it admits the whole batch. */
  lemma {:induction false} AdmittedAll(links: map<LinkId, Link>, next: LinkId, rows: seq<LinkRow>,
                                       admits: (map<LinkId, Link>, LinkRow) -> bool)
    requires forall m, row :: admits(m, row)
    ensures Admitted(links, next, rows, admits) == rows
    decreases |rows|
  {
    if rows != [] {
      AdmittedAll(links[next := NewLink(next, rows[0])], next + 1, rows[1..], admits);
      assert rows == [rows[0]] + rows[1..];
    }
  }

  /** What each new id holds: the admitted rows, in batch order, each one
      stored under the next id with its own url, title, keyword and
      campaign. */
  lemma {:induction false} InsertAllStores(links: map<LinkId, Link>, next: LinkId, rows: seq<LinkRow>,
                                           admits: (map<LinkId, Link>, LinkRow) -> bool)
    ensures var r := InsertAll(links, next, rows, admits);
      var stored := Admitted(links, next, rows, admits);
      && r.1 == next + |stored|
      && (forall id :: next <= id < r.1 ==> id in r.0 && r.0[id] == NewLink(id, stored[id - next]))
    decreases |rows|
  {
    if rows != [] {
      if admits(links, rows[0]) {
        var links' := links[next := NewLink(next, rows[0])];
        InsertAllStores(links', next + 1, rows[1..], admits);
        InsertAllKeeps(links', next + 1, rows[1..], admits);
        StoredHead(links, next, rows, admits);
      } else {
        InsertAllStores(links, next, rows[1..], admits);
      }
    }
  }

  /** The step of `InsertAllStores` where the first row is admitted. */
  lemma StoredHead(links: map<LinkId, Link>, next: LinkId, rows: seq<LinkRow>,
                   admits: (map<LinkId, Link>, LinkRow) -> bool)
    requires rows != [] && admits(links, rows[0])
    requires var links' := links[next := NewLink(next, rows[0])];
      var r := InsertAll(links', next + 1, rows[1..], admits);
      var rest := Admitted(links', next + 1, rows[1..], admits);
      && r.1 == next + 1 + |rest|
      && (forall id :: next + 1 <= id < r.1 ==> id in r.0 && r.0[id] == NewLink(id, rest[id - (next + 1)]))
      && (forall id :: id in links' && id < next + 1 ==> id in r.0 && r.0[id] == links'[id])
    ensures var r := InsertAll(links, next, rows, admits);
      var stored := Admitted(links, next, rows, admits);
      && r.1 == next + |stored|
      && (forall id :: next <= id < r.1 ==> id in r.0 && r.0[id] == NewLink(id, stored[id - next]))
  {
    var links' := links[next := NewLink(next, rows[0])];
    var rest := Admitted(links', next + 1, rows[1..], admits);
    var stored := Admitted(links, next, rows, admits);
    assert stored == [rows[0]] + rest;
    var r := InsertAll(links, next, rows, admits);
    var r' := InsertAll(links', next + 1, rows[1..], admits);
    assert r == r';
    forall id | next <= id < r.1 ensures id in r.0 && r.0[id] == NewLink(id, stored[id - next]) {
      if id == next {
        assert next in links' && r.0[next] == links'[next];
      } else {
        assert stored[id - next] == rest[id - (next + 1)];
      }
    }
  }


  /** Inserting keeps the table well formed: old rows stay as they were and
      every new row sits under a fresh id. */
  lemma InsertAllWellFormed(s: State, rows: seq<LinkRow>, admits: (map<LinkId, Link>, LinkRow) -> bool)
    requires WellFormed(s)
    ensures var r := InsertAll(s.links, s.nextId, rows, admits);
      WellFormed(s.(links := r.0, nextId := r.1))
  {
    InsertAllKeeps(s.links, s.nextId, rows, admits);
  }
}

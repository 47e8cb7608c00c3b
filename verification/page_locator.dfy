/** Lookup-or-create of the journal page for a date. The Notion database is modelled as the
    sequence of its pages in the order the service returns them; the id the service gives a
    newly created page is a parameter. */
module PageLocator {

  /** A page of the date-keyed database: its id, its title and its Date property. */
  datatype Page = Page(id: string, title: string, date: string)

  /** The database query filtered on "Date equals `date`": the matching pages, in order. */
  function Query(db: seq<Page>, date: string): (r: seq<Page>)
    ensures |r| <= |db|
    ensures forall p :: p in r <==> p in db && p.date == date
  {
    if |db| == 0 then []
    else (if db[0].date == date then [db[0]] else []) + Query(db[1..], date)
  }

  /** The page `addPage` creates: its title and its Date are both the date. */
  function NewPage(id: string, date: string): Page {
    Page(id, date, date)
  }

  /** The page id found or created, and the database afterwards. */
  datatype Located = Located(id: string, db: seq<Page>)

  /** Lookup-or-create as a function: the first match if the query finds one, otherwise a page
      created with the id `freshId`. */
  function Locate(db: seq<Page>, date: string, freshId: string): Located {
    var found := Query(db, date);
    if |found| == 0 then Located(freshId, db + [NewPage(freshId, date)])
    else Located(found[0].id, db)
  }

  /** The query's first result is the first page, in database order, with that date. */
  lemma {:induction false} QueryFirst(db: seq<Page>, date: string, i: nat)
    requires i < |db| && db[i].date == date
    requires forall j :: 0 <= j < i ==> db[j].date != date
    ensures |Query(db, date)| > 0 && Query(db, date)[0] == db[i]
  {
    if i > 0 {
      QueryFirst(db[1..], date, i - 1);
    }
  }

  /** The query finds nothing when no page has the date. */
  lemma {:induction false} QueryMiss(db: seq<Page>, date: string)
    requires forall j :: 0 <= j < |db| ==> db[j].date != date
    ensures Query(db, date) == []
  {
    if |db| > 0 {
      QueryMiss(db[1..], date);
    }
  }

  /** Adding a page adds it to the results of the queries for its own date only. */
  lemma {:induction false} QuerySnoc(db: seq<Page>, p: Page, date: string)
    ensures Query(db + [p], date) == Query(db, date) + (if p.date == date then [p] else [])
  {
    if |db| > 0 {
      assert (db + [p])[1..] == db[1..] + [p];
      QuerySnoc(db[1..], p, date);
    } else {
      assert (db + [p])[1..] == [];
    }
  }

  /** `getEntryPageIdFromDate`: scan the query results and return the first match's id, or
      create the page and return the new id. */
  method GetEntryPageIdFromDate(db: seq<Page>, date: string, freshId: string)
    returns (id: string, after: seq<Page>)
    ensures (forall p :: p in db ==> p.date != date) ==> id == freshId && after == db + [NewPage(freshId, date)]
    ensures (exists p :: p in db && p.date == date) ==>
              && after == db
              && exists i :: 0 <= i < |db| && db[i].date == date && db[i].id == id
                             && forall j :: 0 <= j < i ==> db[j].date != date
    ensures Located(id, after) == Locate(db, date, freshId)
  {
    var i := 0;
    while i < |db| && db[i].date != date
      invariant 0 <= i <= |db|
      invariant forall j :: 0 <= j < i ==> db[j].date != date
    {
      i := i + 1;
    }
    if i == |db| {
      QueryMiss(db, date);
      id, after := freshId, db + [NewPage(freshId, date)];
    } else {
      QueryFirst(db, date, i);
      id, after := db[i].id, db;
    }
  }

  /** Lookup is idempotent: once a date has been located, locating it again returns the same id
      and creates nothing, whatever id the service would have given a new page. */
  lemma LocateIdempotent(db: seq<Page>, date: string, freshId: string, otherId: string)
    ensures var first := Locate(db, date, freshId);
            Locate(first.db, date, otherId) == first
  {
  }

  /** At most one page is created, the id returned is that of a page with the date, and no
      query for another date sees any change. */
  lemma LocateEffect(db: seq<Page>, date: string, freshId: string, other: string)
    requires other != date
    ensures var r := Locate(db, date, freshId);
            && |db| <= |r.db| <= |db| + 1
            && r.db[..|db|] == db
            && (exists p :: p in r.db && p.id == r.id && p.date == date)
            && Query(r.db, other) == Query(db, other)
  {
    var r := Locate(db, date, freshId);
    if |Query(db, date)| == 0 {
      QuerySnoc(db, NewPage(freshId, date), other);
      assert NewPage(freshId, date) in r.db;
    } else {
      assert Query(db, date)[0] in Query(db, date);
    }
  }

  /** Each date has at most one page. */
  predicate DatesUnique(db: seq<Page>) {
    forall i, j :: 0 <= i < j < |db| ==> db[i].date != db[j].date
  }

  /** Lookup-or-create never makes a second page for a date: a database with one page per
      date keeps that property. */
  lemma LocateKeepsDatesUnique(db: seq<Page>, date: string, freshId: string)
    requires DatesUnique(db)
    ensures DatesUnique(Locate(db, date, freshId).db)
  {
  }
}

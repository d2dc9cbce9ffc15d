/** The administrator's view of the dead-letter stream (app/modules/admin/dlq_manager.py):
    paging through it, and replaying a message into the order stream. */
module DeadLetters {
  import opened Prelude
  import opened Payload

  // The fields of a stream entry, each of which may be absent.
  datatype Fields = Fields(
    data: Option<Data>, originalId: Option<string>, attempts: Option<int>, failedAt: Option<real>)

  // A stream id in the order of its (milliseconds, sequence) pair.
  datatype Entry = Entry(id: nat, fields: Fields)

  datatype Parsed = Parsed(msgId: nat, data: Data, originalId: Option<string>, attempts: int, failedAt: real)

  const EMPTY_OBJECT: Data := Dict(None, None, None, None)

  ghost predicate Increasing(es: seq<Entry>) {
    forall i, j :: 0 <= i < j < |es| ==> es[i].id < es[j].id
  }

  // ---------- XRANGE ----------

  /** Where the entries above the cursor start; '-' is None. */
  function FirstAbove(es: seq<Entry>, cursor: Option<nat>): (k: nat)
    ensures k <= |es|
    ensures forall i :: 0 <= i < k ==> cursor.Some? && es[i].id <= cursor.value
    ensures k < |es| && cursor.Some? ==> es[k].id > cursor.value
  {
    if es == [] || cursor.None? || es[0].id > cursor.value then 0 else 1 + FirstAbove(es[1..], cursor)
  }

  /** XRANGE (cursor + COUNT count. */
  function Xrange(es: seq<Entry>, cursor: Option<nat>, count: nat): (page: seq<Entry>)
    ensures |page| <= count
  {
    var k := FirstAbove(es, cursor);
    es[k..Min(k + count, |es|)]
  }

  function Parse(e: Entry): Parsed {
    Parsed(e.id,
           if e.fields.data.Some? then e.fields.data.value else EMPTY_OBJECT,
           e.fields.originalId,
           if e.fields.attempts.Some? then e.fields.attempts.value else 0,
           if e.fields.failedAt.Some? then e.fields.failedAt.value else 0.0)
  }

  /** Field by field: what the entry holds, and what is shown for a field it does not have. */
  predicate Shows(m: Parsed, e: Entry) {
    && m.msgId == e.id && m.originalId == e.fields.originalId
    && (e.fields.data == Some(m.data) || (e.fields.data.None? && m.data == Dict(None, None, None, None)))
    && (e.fields.attempts == Some(m.attempts) || (e.fields.attempts.None? && m.attempts == 0))
    && (e.fields.failedAt == Some(m.failedAt) || (e.fields.failedAt.None? && m.failedAt == 0.0))
  }

  datatype Listing =
    | Page(messages: seq<Parsed>, nextCursor: Option<nat>)
    | CountNotPositive  // refused by the client library

  // ---------- following the cursor over a stream that does not change ----------

  function NextCursor(page: seq<Entry>, count: nat): Option<nat>
    requires count >= 1
  {
    if |page| < count then None else Some(page[|page| - 1].id)
  }

  lemma FirstAboveIs(es: seq<Entry>, cursor: nat, n: nat)
    requires n <= |es| && (forall i :: 0 <= i < n ==> es[i].id <= cursor) && (n < |es| ==> es[n].id > cursor)
    ensures FirstAbove(es, Some(cursor)) == n
  {
  }

  /** The cursor of a full page points just behind it. */
  lemma CursorAdvances(es: seq<Entry>, cursor: Option<nat>, count: nat)
    requires Increasing(es) && count >= 1 && |Xrange(es, cursor, count)| == count
    ensures FirstAbove(es, NextCursor(Xrange(es, cursor, count), count)) == FirstAbove(es, cursor) + count
  {
    var n := FirstAbove(es, cursor) + count;
    var page := Xrange(es, cursor, count);
    assert page[|page| - 1] == es[n - 1];
    FirstAboveIs(es, es[n - 1].id, n);
  }

  /** The pages a client sees that follows `next_cursor` until there is none. */
  ghost function Pages(es: seq<Entry>, count: nat, cursor: Option<nat>): seq<seq<Entry>>
    requires Increasing(es) && count >= 1
    decreases |es| - FirstAbove(es, cursor)
  {
    var page := Xrange(es, cursor, count);
    if NextCursor(page, count).None? then [page]
    else
      CursorAdvances(es, cursor, count);
      [page] + Pages(es, count, NextCursor(page, count))
  }

  function Concat(pages: seq<seq<Entry>>): seq<Entry> {
    if pages == [] then [] else pages[0] + Concat(pages[1..])
  }

  // The pages put together are everything from position k on, in as many requests as that takes.
  ghost predicate AllFrom(es: seq<Entry>, k: nat, count: nat, pages: seq<seq<Entry>>)
    requires k <= |es| && count >= 1
  {
    Concat(pages) == es[k..] && |pages| == (|es| - k) / count + 1
  }

  lemma {:induction false} PagesFrom(es: seq<Entry>, count: nat, cursor: Option<nat>)
    requires Increasing(es) && count >= 1
    ensures AllFrom(es, FirstAbove(es, cursor), count, Pages(es, count, cursor))
    decreases |es| - FirstAbove(es, cursor)
  {
    var k := FirstAbove(es, cursor);
    var page := Xrange(es, cursor, count);
    if |page| < count {
      LastPage(es, k, count, page);
    } else {
      CursorAdvances(es, cursor, count);
      PagesFrom(es, count, NextCursor(page, count));
      FullPage(es, k, count, page, Pages(es, count, NextCursor(page, count)));
    }
  }

  lemma LastPage(es: seq<Entry>, k: nat, count: nat, page: seq<Entry>)
    requires k <= |es| < k + count && page == es[k..]
    ensures AllFrom(es, k, count, [page])
  {
    assert [page][1..] == [] && page + [] == page;
  }

  // One full page in front of the rest.
  lemma FullPage(es: seq<Entry>, k: nat, count: nat, page: seq<Entry>, rest: seq<seq<Entry>>)
    requires count >= 1 && k + count <= |es| && page == es[k..k + count]
    requires AllFrom(es, k + count, count, rest)
    ensures AllFrom(es, k, count, [page] + rest)
  {
    assert ([page] + rest)[1..] == rest;
    assert page + es[k + count..] == es[k..];
    QuotientStep(|es| - k, count);
  }

  lemma QuotientStep(n: nat, count: nat)
    requires n >= count >= 1
    ensures n / count == (n - count) / count + 1
  {
    var p, q := n / count, (n - count) / count;
    assert n - count == count * q + (n - count) % count;
    assert n == count * (q + 1) + (n - count) % count;
    assert n == count * p + n % count;
    if p < q + 1 {
      TimesMonotone(count, p + 1, q + 1);
    } else if q + 1 < p {
      TimesMonotone(count, q + 2, p);
    }
  }

  /** Paging is complete: following the cursor from '-' ends, the pages put together are the
      whole stream in order, and it takes one request more than the length has full pages -
      so when the length is an exact multiple of the count the last page is empty. */
  lemma PagingIsComplete(es: seq<Entry>, count: nat)
    requires Increasing(es) && count >= 1
    ensures Concat(Pages(es, count, None)) == es
    ensures |Pages(es, count, None)| == |es| / count + 1
  {
    PagesFrom(es, count, None);
  }

  // ---------- following the cursor over a stream that does change ----------

  /** Request k sees versions[k]; the flag says that the last page seen had no next cursor. */
  function Follow(versions: seq<seq<Entry>>, count: nat, cursor: Option<nat>): (seq<Entry>, bool)
    requires count >= 1
  {
    if versions == [] then ([], false)
    else
      var page := Xrange(versions[0], cursor, count);
      if |page| < count then (page, true)
      else
        var rest := Follow(versions[1..], count, NextCursor(page, count));
        (page + rest.0, rest.1)
  }

  ghost predicate Above(e: Entry, cursor: Option<nat>) {
    cursor.Some? ==> e.id > cursor.value
  }

  lemma PageIsAbove(es: seq<Entry>, cursor: Option<nat>, count: nat, i: nat)
    requires Increasing(es) && i < |es|
    ensures var k := FirstAbove(es, cursor);
            && (Above(es[i], cursor) <==> i >= k)
            && (k <= i < k + count ==> es[i] in Xrange(es, cursor, count))
  {
    var k := FirstAbove(es, cursor);
    if i >= k {
      assert i > k ==> es[k].id < es[i].id;
      if i < k + count {
        assert Xrange(es, cursor, count)[i - k] == es[i];
      }
    }
  }

  lemma PageIncreases(es: seq<Entry>, cursor: Option<nat>, count: nat)
    requires Increasing(es)
    ensures Increasing(Xrange(es, cursor, count))
    ensures forall e :: e in Xrange(es, cursor, count) ==> Above(e, cursor)
  {
    var k := FirstAbove(es, cursor);
    var page := Xrange(es, cursor, count);
    assert forall i :: 0 <= i < |page| ==> page[i] == es[k + i];
    forall e | e in page
      ensures Above(e, cursor)
    {
      var i :| 0 <= i < |page| && page[i] == e;
      PageIsAbove(es, cursor, count, k + i);
    }
  }

  // A page leaves out nothing between its cursor and the next one.
  lemma PageMissesNothing(es: seq<Entry>, cursor: Option<nat>, count: nat, e: Entry)
    requires Increasing(es) && count >= 1 && e in es && Above(e, cursor)
    requires var page := Xrange(es, cursor, count); |page| == count ==> e.id <= page[count - 1].id
    ensures e in Xrange(es, cursor, count)
  {
    var k := FirstAbove(es, cursor);
    var page := Xrange(es, cursor, count);
    var i :| 0 <= i < |es| && es[i] == e;
    PageIsAbove(es, cursor, count, i);
    assert |page| == count ==> page[count - 1] == es[k + count - 1];
  }

  ghost predicate Stays(versions: seq<seq<Entry>>, e: Entry) {
    forall k :: 0 <= k < |versions| ==> e in versions[k]
  }

  // A listing from the cursor on: in order, so without repeats, and complete if it ended.
  ghost predicate GoodListing(versions: seq<seq<Entry>>, cursor: Option<nat>, seen: seq<Entry>, ended: bool) {
    && Increasing(seen)
    && (forall e :: e in seen ==> Above(e, cursor))
    && (ended ==> forall e :: Stays(versions, e) && Above(e, cursor) ==> e in seen)
  }

  /** Whatever is replayed, deleted or added between two requests, no entry is ever listed
      twice, and a client that reaches the end has seen every entry that stayed throughout. */
  lemma {:induction false} FollowSeesWhatStays(versions: seq<seq<Entry>>, count: nat, cursor: Option<nat>)
    requires count >= 1 && forall k :: 0 <= k < |versions| ==> Increasing(versions[k])
    ensures var seen := Follow(versions, count, cursor); GoodListing(versions, cursor, seen.0, seen.1)
    decreases |versions|
  {
    if versions != [] {
      var page := Xrange(versions[0], cursor, count);
      PageIncreases(versions[0], cursor, count);
      if |page| < count {
        forall e | Stays(versions, e) && Above(e, cursor)
          ensures e in page
        {
          PageMissesNothing(versions[0], cursor, count, e);
        }
      } else {
        var last := page[count - 1];
        FollowSeesWhatStays(versions[1..], count, Some(last.id));
        var rest := Follow(versions[1..], count, Some(last.id));
        ListingGrows(versions, count, cursor, rest.0, rest.1);
      }
    }
  }

  lemma ListingGrows(versions: seq<seq<Entry>>, count: nat, cursor: Option<nat>, rest: seq<Entry>, ended: bool)
    requires count >= 1 && versions != [] && Increasing(versions[0])
    requires |Xrange(versions[0], cursor, count)| == count
    requires GoodListing(versions[1..], Some(Xrange(versions[0], cursor, count)[count - 1].id), rest, ended)
    ensures GoodListing(versions, cursor, Xrange(versions[0], cursor, count) + rest, ended)
  {
    var page := Xrange(versions[0], cursor, count);
    var last := page[count - 1];
    PageIncreases(versions[0], cursor, count);
    assert last in page;
    JoinIncreases(page, rest);
    forall e | ended && Stays(versions, e) && Above(e, cursor)
      ensures e in page + rest
    {
      if e.id > last.id {
        assert forall k :: 0 <= k < |versions[1..]| ==> versions[1..][k] == versions[k + 1];
        assert Stays(versions[1..], e);
      } else {
        PageMissesNothing(versions[0], cursor, count, e);
      }
    }
  }

  lemma JoinIncreases(a: seq<Entry>, b: seq<Entry>)
    requires Increasing(a) && Increasing(b) && a != []
    requires forall e :: e in b ==> Above(e, Some(a[|a| - 1].id))
    ensures Increasing(a + b)
  {
    forall i, j | 0 <= i < j < |a + b|
      ensures (a + b)[i].id < (a + b)[j].id
    {
      if i < |a| <= j {
        assert b[j - |a|] in b;
        assert i < |a| - 1 ==> a[i].id < a[|a| - 1].id;
      }
    }
  }

  // ---------- the two operations ----------

  class DeadLetterQueue {
    var dead: seq<Entry>
    var stream: seq<Entry>

    ghost predicate Valid()
      reads this
    {
      Increasing(dead) && Increasing(stream)
    }

    constructor (dead: seq<Entry>, stream: seq<Entry>)
      requires Increasing(dead) && Increasing(stream)
      ensures Valid() && this.dead == dead && this.stream == stream
    {
      this.dead, this.stream := dead, stream;
    }

    /** `get_dead_letters`: one page, and a cursor unless the page is short. */
    method GetDeadLetters(count: int, cursor: Option<nat>) returns (r: Listing)
      ensures r.CountNotPositive? <==> count < 1
      ensures count >= 1 ==>
                var page := Xrange(dead, cursor, count);
                && r.nextCursor == NextCursor(page, count)
                && |r.messages| == |page|
                && (forall k :: 0 <= k < |page| ==> r.messages[k] == Parse(page[k]))
                && forall k :: 0 <= k < |page| ==> Shows(r.messages[k], page[k])
    {
      if count < 1 {
        return CountNotPositive;
      }
      var deadMessages := Xrange(dead, cursor, count);
      var parsedMessage: seq<Parsed> := [];
      for i := 0 to |deadMessages|
        invariant |parsedMessage| == i
        invariant forall k :: 0 <= k < i ==> parsedMessage[k] == Parse(deadMessages[k])
      {
        parsedMessage := parsedMessage + [Parse(deadMessages[i])];
      }
      if |deadMessages| < count {
        return Page(parsedMessage, None);
      }
      return Page(parsedMessage, Some(deadMessages[|deadMessages| - 1].id));
    }

    /** `replay_message`, when nobody else replays the same message: the entry leaves the dead
        letters and its fields, with no attempts made, enter the stream under a new id. */
    method ReplayMessage(id: nat, now: nat) returns (r: Option<nat>)
      requires Valid()
      modifies this
      ensures Valid()
      ensures r.None? <==> forall k :: 0 <= k < |old(dead)| ==> old(dead)[k].id != id
      ensures r.None? ==> dead == old(dead) && stream == old(stream)
      ensures r.Some? ==>
                exists k :: 0 <= k < |old(dead)| && old(dead)[k].id == id
                  && dead == old(dead)[..k] + old(dead)[k + 1..]
                  && stream == old(stream) + [Entry(r.value, old(dead)[k].fields.(attempts := Some(0)))]
      ensures r.Some? ==> r.value >= now && forall e :: e in old(stream) ==> e.id < r.value
      ensures Payloads(dead) + Payloads(stream) == old(Payloads(dead) + Payloads(stream))
    {
      var k := FirstAbove(dead, if id == 0 then None else Some(id - 1));
      if k == |dead| || dead[k].id != id {
        return None;
      }
      var fields := dead[k].fields.(attempts := Some(0));
      var newId := if stream == [] || stream[|stream| - 1].id < now then now else stream[|stream| - 1].id + 1;
      PayloadsMoved(dead, k, stream, Entry(newId, fields));
      stream := stream + [Entry(newId, fields)];
      dead := dead[..k] + dead[k + 1..];
      return Some(newId);
    }
  }

  function Datas(es: seq<Entry>): seq<Option<Data>> {
    seq(|es|, i requires 0 <= i < |es| => es[i].fields.data)
  }

  /** The payloads of a stream, with multiplicity. */
  function Payloads(es: seq<Entry>): multiset<Option<Data>> {
    multiset(Datas(es))
  }

  /** Moving an entry from one stream to the end of another keeps every payload. */
  lemma PayloadsMoved(from: seq<Entry>, k: nat, to: seq<Entry>, e: Entry)
    requires k < |from| && e.fields.data == from[k].fields.data
    ensures Payloads(from[..k] + from[k + 1..]) + Payloads(to + [e]) == Payloads(from) + Payloads(to)
  {
    assert Datas(from) == Datas(from[..k]) + ([from[k].fields.data] + Datas(from[k + 1..]));
    assert Datas(from[..k] + from[k + 1..]) == Datas(from[..k]) + Datas(from[k + 1..]);
    assert Datas(to + [e]) == Datas(to) + [e.fields.data];
  }
}

/**
 * The Cosmos DB container that holds conversation turns, seen as an
 * append-only log, and the history the handler rebuilds from it.
 */
module Store {
  import opened Wrappers
  import opened Text

  /** One stored item: `{id, conversation_id, conversation}`. */
  datatype Turn = Turn(id: string, conversationId: string, conversation: string)

  /** The items whose `conversation_id` is `cid`, in store order (the exact-match query). */
  function Matching(items: seq<Turn>, cid: string): (r: seq<Turn>)
    ensures |r| <= |items|
    ensures forall t :: t in r ==> t in items && t.conversationId == cid
    ensures forall t :: t in items && t.conversationId == cid ==> t in r
  {
    if items == [] then []
    else
      var init := Matching(items[..|items| - 1], cid);
      var last := items[|items| - 1];
      assert items == items[..|items| - 1] + [last];
      if last.conversationId == cid then init + [last] else init
  }

  /** Matching distributes over concatenation, so the query keeps insertion order. */
  lemma {:induction false} MatchingAppend(a: seq<Turn>, b: seq<Turn>, cid: string)
    ensures Matching(a + b, cid) == Matching(a, cid) + Matching(b, cid)
    decreases |b|
  {
    if b == [] {
      assert a + b == a;
    } else {
      var b' := b[..|b| - 1];
      assert (a + b)[..|a + b| - 1] == a + b';
      MatchingAppend(a, b', cid);
    }
  }

  /** The `conversation` text of each turn, in order. */
  function Texts(ts: seq<Turn>): seq<string> {
    seq(|ts|, i requires 0 <= i < |ts| => ts[i].conversation)
  }

  lemma TextsSnoc(ts: seq<Turn>, t: Turn)
    ensures Texts(ts + [t]) == Texts(ts) + [t.conversation]
  {
  }

  /** The texts of a conversation's stored turns, in store order, joined with ";". */
  function History(items: seq<Turn>, cid: string): string {
    Join(Texts(Matching(items, cid)), ";")
  }

  /**
   * Appending a turn for `cid` extends that conversation's history by its
   * text, after a `;` when there was an earlier turn.
   */
  lemma AppendExtendsHistory(items: seq<Turn>, t: Turn)
    ensures History(items + [t], t.conversationId)
         == if Matching(items, t.conversationId) == [] then t.conversation
            else History(items, t.conversationId) + ";" + t.conversation
  {
    var cid := t.conversationId;
    MatchingAppend(items, [t], cid);
    assert Matching([t], cid) == [t];
    var m := Matching(items, cid);
    TextsSnoc(m, t);
    JoinSnoc(Texts(m), ";", t.conversation);
  }

  /** Appending a turn for one conversation leaves every other conversation's history alone. */
  lemma AppendKeepsOtherHistory(items: seq<Turn>, t: Turn, cid: string)
    requires cid != t.conversationId
    ensures History(items + [t], cid) == History(items, cid)
  {
    MatchingAppend(items, [t], cid);
    assert Matching(items + [t], cid) == Matching(items, cid);
  }

  /**
   * The joined history is empty exactly when the conversation has no stored
   * turn, or one whose text is empty: only then is the intent resolver skipped.
   */
  lemma HistoryEmpty(items: seq<Turn>, cid: string)
    ensures History(items, cid) == ""
        <==> |Matching(items, cid)| == 0
             || (|Matching(items, cid)| == 1 && Matching(items, cid)[0].conversation == "")
  {
    var ts := Texts(Matching(items, cid));
    JoinEmpty(ts, ";");
    assert ts == [""] <==> |ts| == 1 && ts[0] == "";
  }

  /** Every stored turn has a non-empty text, as every turn the handler saves does. */
  predicate NonEmptyTexts(items: seq<Turn>) {
    forall i :: 0 <= i < |items| ==> items[i].conversation != ""
  }

  /**
   * In a store the handler alone has written, the joined history is empty
   * exactly when the conversation has no stored turn.
   */
  lemma HistoryEmptyIffNoTurn(items: seq<Turn>, cid: string)
    requires NonEmptyTexts(items)
    ensures History(items, cid) == "" <==> Matching(items, cid) == []
  {
    HistoryEmpty(items, cid);
    var m := Matching(items, cid);
    if |m| == 1 {
      assert m[0] in items;
    }
  }

  /** The Cosmos container client: its items and whether its calls currently fail. */
  class Container {
    var items: seq<Turn>
    /** Set when `query_items` raises; the cause is what the exception reads. */
    var readFault: Option<string>
    /** Set when `create_item` raises; the cause is what the exception reads. */
    var writeFault: Option<string>

    /** Item ids are unique in the container. */
    ghost predicate Valid()
      reads this
    {
      forall i, j :: 0 <= i < j < |items| ==> items[i].id != items[j].id
    }

    ghost predicate HasId(id: string)
      reads this
    {
      exists i :: 0 <= i < |items| && items[i].id == id
    }

    constructor (items: seq<Turn>, readFault: Option<string>, writeFault: Option<string>)
      requires forall i, j :: 0 <= i < j < |items| ==> items[i].id != items[j].id
      ensures Valid()
      ensures this.items == items && this.readFault == readFault && this.writeFault == writeFault
    {
      this.items := items;
      this.readFault := readFault;
      this.writeFault := writeFault;
    }

    /** All turns of conversation `cid` in store order, or the read failure. */
    method QueryItems(cid: string) returns (r: Result<seq<Turn>>)
      ensures readFault.Some? ==> r == Failure(readFault.value)
      ensures readFault.None? ==> r.Success?
      ensures r.Success? ==> forall t :: t in r.value <==> t in items && t.conversationId == cid
      ensures r.Success? ==> Join(Texts(r.value), ";") == History(items, cid)
    {
      if readFault.Some? {
        return Failure(readFault.value);
      }
      r := Success(Matching(items, cid));
    }

    /** Stores one new item after the existing ones, or fails and stores nothing. */
    method CreateItem(t: Turn) returns (r: Outcome)
      requires Valid()
      requires !HasId(t.id)
      modifies this
      ensures Valid()
      ensures readFault == old(readFault) && writeFault == old(writeFault)
      ensures r == (if writeFault.Some? then Fail(writeFault.value) else Pass)
      ensures items == if r.Pass? then old(items) + [t] else old(items)
    {
      if writeFault.Some? {
        return Fail(writeFault.value);
      }
      items := items + [t];
      r := Pass;
    }
  }
}

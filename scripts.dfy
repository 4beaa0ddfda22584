/** What the classification scripts share: the columns of the `segments` table they
    update, the record of a chat call a script makes, and the ways a chat reply can end. */
module Scripts {

  import opened Wrappers

  /** The call a script makes through `ModelContext.chat`. */
  datatype ChatCall = ChatCall(prompt: string, temperature: real, jsonStart: string)

  /** How the reply to a chat call turned out, up to the parsed value. */
  datatype Reply<T> =
    | NoReply     // `chat` returned `None`: logged, nothing stored
    | ChatFailed  // `chat` raised: the `handle_exceptions` wrapper logs it
    | NoJson      // no `{...}` in the reply: `AttributeError`, logged by the wrapper
    | Invalid     // the JSON does not validate: `ValidationError`, logged
    | Parsed(value: T)

  /** `-1` stands for "no match" in the database. */
  function Sentinel(v: Option<int>): (r: int)
    ensures v.None? ==> r == -1
    ensures v.Some? ==> r == v.value
  {
    v.GetOr(-1)
  }

  /** The classification columns of `segments`, by segment id; `None` is `NULL`. */
  class SegmentTable {
    const ids: set<int>
    var issueId: map<int, Option<int>>
    var topicId: map<int, Option<int>>
    var hardNews: map<int, Option<bool>>
    var otherId: map<int, Option<int>>

    ghost predicate Valid()
      reads this
    {
      issueId.Keys == ids && topicId.Keys == ids && hardNews.Keys == ids && otherId.Keys == ids
    }

    /** A table whose rows are all unclassified. */
    constructor (ids: set<int>)
      ensures Valid() && this.ids == ids
      ensures forall id :: id in ids ==> issueId[id].None? && topicId[id].None? && hardNews[id].None? && otherId[id].None?
    {
      this.ids := ids;
      issueId := map id | id in ids :: None;
      topicId := map id | id in ids :: None;
      hardNews := map id | id in ids :: None;
      otherId := map id | id in ids :: None;
    }

    /** `UPDATE segments SET issue_id = ? WHERE id = ?`; `rowcount` is 0 for an unknown id. */
    method SetIssue(id: int, v: Option<int>) returns (rowcount: nat)
      requires Valid()
      modifies this
      ensures Valid() && rowcount == (if id in ids then 1 else 0)
      ensures issueId == (if id in ids then old(issueId)[id := v] else old(issueId))
      ensures topicId == old(topicId) && hardNews == old(hardNews) && otherId == old(otherId)
    {
      if id in ids {
        issueId := issueId[id := v];
        rowcount := 1;
      } else {
        rowcount := 0;
      }
    }

    /** `UPDATE segments SET topic_id = ?, hard_news = ? WHERE id = ?`. */
    method SetTopic(id: int, v: Option<int>, hard: Option<bool>) returns (rowcount: nat)
      requires Valid()
      modifies this
      ensures Valid() && rowcount == (if id in ids then 1 else 0)
      ensures topicId == (if id in ids then old(topicId)[id := v] else old(topicId))
      ensures hardNews == (if id in ids then old(hardNews)[id := hard] else old(hardNews))
      ensures issueId == old(issueId) && otherId == old(otherId)
    {
      if id in ids {
        topicId := topicId[id := v];
        hardNews := hardNews[id := hard];
        rowcount := 1;
      } else {
        rowcount := 0;
      }
    }

    /** `UPDATE segments SET other_id = ? WHERE id = ?`. */
    method SetOther(id: int, v: Option<int>) returns (rowcount: nat)
      requires Valid()
      modifies this
      ensures Valid() && rowcount == (if id in ids then 1 else 0)
      ensures otherId == (if id in ids then old(otherId)[id := v] else old(otherId))
      ensures issueId == old(issueId) && topicId == old(topicId) && hardNews == old(hardNews)
    {
      if id in ids {
        otherId := otherId[id := v];
        rowcount := 1;
      } else {
        rowcount := 0;
      }
    }
  }
}

/**
 The messages of one recording (algo/src/algo_common/io.py).
 */
module Recording {
  import Sorting

  /** `closed` and `motion` are the two data fields the operators read. */
  datatype Message = Message(topic: string, timestampMs: int, closed: bool, motion: real)

  datatype McapFile = McapFile(durationMs: int, messages: seq<Message>)

  function OnTopic(messages: seq<Message>, topic: string): (r: seq<Message>)
    ensures forall m :: m in r <==> m in messages && m.topic == topic
  {
    if messages == [] then []
    else (if messages[0].topic == topic then [messages[0]] else []) + OnTopic(messages[1..], topic)
  }

  function TimeOf(m: Message): real { m.timestampMs as real }

  ghost predicate InTimeOrder(messages: seq<Message>) {
    forall i, j :: 0 <= i < j < |messages| ==> messages[i].timestampMs <= messages[j].timestampMs
  }

  /** The messages of one topic by time. */
  function MessagesFor(mcap: McapFile, topic: string): (r: seq<Message>)
    ensures InTimeOrder(r)
    ensures forall m :: m in r <==> m in mcap.messages && m.topic == topic
  {
    var chosen := OnTopic(mcap.messages, topic);
    assert forall m :: m in Sorting.Sort(chosen, TimeOf) <==> m in chosen by {
      forall m ensures m in Sorting.Sort(chosen, TimeOf) <==> m in chosen {
        Sorting.SameElements(chosen, TimeOf, m);
      }
    }
    assert InTimeOrder(Sorting.Sort(chosen, TimeOf)) by {
      Sorting.SortAscending(chosen, TimeOf);
      assert forall a: Message, b: Message :: TimeOf(a) <= TimeOf(b) ==> a.timestampMs <= b.timestampMs;
    }
    Sorting.Sort(chosen, TimeOf)
  }

  /** No message is lost or doubled, and messages with one time stamp keep their order. */
  lemma MessagesForKeepsAll(mcap: McapFile, topic: string, timestampMs: int)
    ensures var all, r := OnTopic(mcap.messages, topic), MessagesFor(mcap, topic);
            && multiset(r) == multiset(all)
            && Sorting.WithKey(r, TimeOf, timestampMs as real) == Sorting.WithKey(all, TimeOf, timestampMs as real)
  {
    Sorting.SortPermutes(OnTopic(mcap.messages, topic), TimeOf);
    Sorting.SortStable(OnTopic(mcap.messages, topic), TimeOf, timestampMs as real);
  }
}

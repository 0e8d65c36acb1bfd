/** `api/knowledge_base.py`: the module-level list `KNOWLEDGE_DATA` of
    knowledge chunks, handed out by reference, appended to one item at a
    time and extended with the non-blank lines of a text file. */
module KnowledgeBase {
  import opened Wrappers
  import opened Text
  import opened ChatMessages

  /** The fifteen chunks the list starts with. */
  const DefaultItems: seq<string> := [
    "Nexobotics specializes in AI-powered customer " +
      "service automation solutions for businesses " +
      "of all sizes.",
    "Our flagship product, NOVA, is an AI customer " +
      "service agent that can handle customer inquiries " +
      "24/7 without human intervention.",
    "NOVA can be deployed across multiple channels " +
      "including websites, mobile apps, email, " +
      "and social media.",
    "Nexobotics uses advanced natural language " +
      "processing to understand and respond to " +
      "customer queries with human-like understanding.",
    "Businesses using Nexobotics solutions report " +
      "an average of 70% reduction in customer " +
      "service costs within the first six months.",
    "Our AI agents can be customized to match " +
      "your brand voice and company policies, ensuring " +
      "consistent customer experiences.",
    "Nexobotics offers seamless integration with " +
      "popular CRM systems including Salesforce, " +
      "HubSpot, and Zoho.",
    "The Nexobotics analytics dashboard provides " +
      "real-time insights into customer interactions, " +
      "common issues, and satisfaction metrics.",
    "Our AI technology continuously learns from " +
      "interactions to improve response accuracy " +
      "and customer satisfaction over time.",
    "Nexobotics solutions can handle multiple " +
      "languages including English, Spanish, French, " +
      "German, Japanese, and Mandarin.",
    "The average response time for queries handled " +
      "by Nexobotics AI is under 2 seconds, compared " +
      "to industry average wait times of 11 minutes " +
      "for human agents.",
    "Nexobotics offers both fully automated solutions " +
      "and hybrid models where AI handles routine " +
      "queries and escalates complex issues to " +
      "human agents.",
    "Our security protocols ensure all customer " +
      "data is encrypted and handled in compliance " +
      "with GDPR, CCPA, and other privacy regulations.",
    "Nexobotics was founded in 2020 by a team " +
      "of AI researchers and customer experience " +
      "professionals with a mission to transform " +
      "business-customer relationships.",
    "Our subscription plans scale based on query " +
      "volume, making our solutions accessible " +
      "to businesses from startups to enterprise " +
      "corporations."]

  /** A Python list object, changed in place. */
  class ItemList {
    var items: seq<string>

    constructor (initial: seq<string>)
      ensures items == initial
    {
      items := initial;
    }
  }

  /** The lines a file contributes: each line stripped, the blank ones
      dropped, in file order (`[line.strip() for line in file if
      line.strip()]`). */
  function KeptLines(lines: seq<string>): (kept: seq<string>)
    ensures |kept| <= |lines|
  {
    if lines == [] then []
    else KeptLines(lines[..|lines| - 1])
         + (if Strip(lines[|lines| - 1]) != [] then [Strip(lines[|lines| - 1])] else [])
  }

  /** Every kept line is stripped already and not empty. */
  lemma {:induction false} KeptLinesStripped(lines: seq<string>)
    ensures forall k :: 0 <= k < |KeptLines(lines)| ==>
      KeptLines(lines)[k] != [] && Strip(KeptLines(lines)[k]) == KeptLines(lines)[k]
  {
    if lines != [] {
      KeptLinesStripped(lines[..|lines| - 1]);
      StripIdempotent(lines[|lines| - 1]);
    }
  }

  /** Every kept text is the stripped form of some line, and not empty. */
  lemma {:induction false} KeptLinesSound(lines: seq<string>, x: string) returns (i: nat)
    requires x in KeptLines(lines)
    ensures x != [] && i < |lines| && Strip(lines[i]) == x
  {
    var n := |lines| - 1;
    var init := lines[..n];
    if x in KeptLines(init) {
      i := KeptLinesSound(init, x);
      assert lines[i] == init[i];
    } else {
      i := n;
    }
  }

  /** Every line whose stripped form is not empty contributes it. */
  lemma {:induction false} KeptLinesComplete(lines: seq<string>, i: nat)
    requires i < |lines| && Strip(lines[i]) != []
    ensures Strip(lines[i]) in KeptLines(lines)
  {
    var n := |lines| - 1;
    var init := lines[..n];
    var line := Strip(lines[i]);
    var last := if Strip(lines[n]) != [] then [Strip(lines[n])] else [];
    assert KeptLines(lines) == KeptLines(init) + last;
    if i < n {
      assert init[i] == lines[i];
      KeptLinesComplete(init, i);
      assert line in KeptLines(init);
    } else {
      assert last == [line];
    }
  }

  /** A text is kept exactly when it is the stripped form of some line
      and not empty. */
  lemma KeptLinesMembers(lines: seq<string>, x: string)
    ensures x in KeptLines(lines) <==> x != [] && exists i :: 0 <= i < |lines| && Strip(lines[i]) == x
  {
    if x in KeptLines(lines) {
      var i := KeptLinesSound(lines, x);
    }
    if x != [] && exists i :: 0 <= i < |lines| && Strip(lines[i]) == x {
      var i :| 0 <= i < |lines| && Strip(lines[i]) == x;
      KeptLinesComplete(lines, i);
    }
  }

  /** Filtering keeps file order: the lines of two parts of a file are
      the lines of the first part followed by those of the second. */
  lemma {:induction false} KeptLinesAppend(a: seq<string>, b: seq<string>)
    ensures KeptLines(a + b) == KeptLines(a) + KeptLines(b)
    decreases |b|
  {
    if b == [] {
      assert a + b == a;
    } else {
      var init := b[..|b| - 1];
      assert (a + b)[..|a + b| - 1] == a + init;
      KeptLinesAppend(a, init);
    }
  }

  /** The module and its global list. */
  class Module {
    /** `KNOWLEDGE_DATA` */
    const data: ItemList

    constructor ()
      ensures data.items == DefaultItems && fresh(data)
    {
      data := new ItemList(DefaultItems);
    }

    /** `get_knowledge_data()`: the list object itself, not a copy, so
        what a caller changes through it is what the module sees. */
    method GetKnowledgeData() returns (list: ItemList)
      ensures list == data
    {
      list := data;
    }

    /** `add_knowledge_item(item)`: a non-empty string (`None` stands for
        a value that is not a string) is appended at the end; anything else
        is refused and the list is left alone. */
    method AddKnowledgeItem(item: Option<string>) returns (added: bool)
      modifies data
      ensures added <==> IsSet(item)
      ensures added ==> data.items == old(data.items) + [item.value]
      ensures !added ==> data.items == old(data.items)
    {
      if IsSet(item) {
        data.items := data.items + [item.value];
        return true;
      }
      return false;
    }

    /** `load_knowledge_from_file(filepath)`: `file` holds the file's
        lines, or `None` when opening or reading it raises. The kept lines
        are appended to the list and returned; on an error the list is
        unchanged and nothing is returned. */
    method LoadKnowledgeFromFile(file: Option<seq<string>>) returns (newData: seq<string>)
      modifies data
      ensures file.None? ==> newData == [] && data.items == old(data.items)
      ensures file.Some? ==> newData == KeptLines(file.value) && data.items == old(data.items) + newData
    {
      if file.None? {
        return [];
      }
      newData := KeptLines(file.value);
      data.items := data.items + newData;
    }
  }
}

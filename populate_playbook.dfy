/** The playbook population script: for every representative phrase of every golden script it
    computes an embedding and upserts a row keyed by (intent_name, representative_phrase) into
    the `playbook` table, counting successes and errors.

    The table is a map from that key to the row (its database id, script and embedding). The
    embeddings API, the lookup and the write are external calls whose outcomes are given as
    functions (`Oracles`). The loop is specified by `Run`, a fold of `Step` over the phrases in
    table order; the lemmas below state what the counters and the table then satisfy. */
module Playbook {
  import opened Common

  type Embedding = seq<real>

  datatype GoldenScript = GoldenScript(intentName: string, representativePhrases: seq<string>, script: string)

  datatype Key = Key(intentName: string, phrase: string)

  /** A `playbook` row: its database id, its script and its embedding (stored as JSON text). */
  datatype Row = Row(id: int, script: string, embedding: Embedding)

  type Table = map<Key, Row>

  /** The PostgREST code for "the single-row lookup found no row". */
  const NoRowsCode := "PGRST116"

  /** Outcomes of the external calls made for one phrase:
      `embed(phrase)` is None when the embeddings API throws; `lookupFault(key)` is the code of
      an error returned by the existence check, if any; `writeFails(key)` says whether the
      update or insert returns an error. */
  datatype Oracles = Oracles(embed: string -> Option<Embedding>, lookupFault: Key -> Option<string>,
                             writeFails: Key -> bool)

  /** One phrase to process, with the script of its intent. */
  datatype Item = Item(key: Key, script: string)

  /** The loop's state: the table, the next id the database assigns, and the two counters. */
  datatype State = State(table: Table, nextId: int, successCount: nat, errorCount: nat)

  const GoldenScripts: seq<GoldenScript> := [
    GoldenScript("opening_script",
      ["I need some help with my credit.",
       "Can you help me with credit repair?",
       "I saw an ad and I need to fix my credit score."],
      "Hi [Customer Name], this is [Your Name] from Zeroscript. How is your day going? ... Great to hear. I'm giving you a call because you requested some information about helping with your credit. To start, are you aware of the specific negative items on your account?"),
    GoldenScript("price_inquiry",
      ["How much does this cost?",
       "What's your pricing?",
       "Can you tell me the cost?",
       "So what's the fee for this?"],
      "That's a fair question. The investment is [Amount] per month, and that covers everything. There are no other hidden fees."),
    GoldenScript("guarantee_question",
      ["Do you have a money back guarantee?",
       "Is there a guarantee?",
       "What if I'm not satisfied?",
       "What happens if it doesn't work?"],
      "You are protected by a 100% money-back guarantee. If we don't provide you with a minimum of a 100-point increase across all three bureaus in 90 days, you get all of your money back, fully refunded."),
    GoldenScript("authority_pitch",
      ["Why should I choose you?",
       "What makes you different?",
       "How do I know this isn't a scam?"],
      "That's a great question. Our founder, Matt, has been building our credibility for over ten years and is one of the best in the industry. He's the one who will be heading the work on your file."),
    GoldenScript("objection_indecision",
      ["I need to think about it.",
       "Let me think this over.",
       "I need to talk to my spouse about this."],
      "I completely understand. Just so you know, you are protected by our 100% money-back guarantee. If you don't see the results we discussed, you get a full refund, so there is no risk to you.")
  ]

  /** `goldenScripts.reduce((sum, script) => sum + script.representative_phrases.length, 0)`. */
  function TotalEntries(scripts: seq<GoldenScript>): nat {
    if scripts == [] then 0
    else TotalEntries(scripts[..|scripts| - 1]) + |scripts[|scripts| - 1].representativePhrases|
  }

  /** The phrases of one intent, in order. */
  function Items(entry: GoldenScript): (items: seq<Item>)
    ensures |items| == |entry.representativePhrases|
    ensures forall j :: 0 <= j < |items| ==>
              items[j] == Item(Key(entry.intentName, entry.representativePhrases[j]), entry.script)
  {
    seq(|entry.representativePhrases|, j requires 0 <= j < |entry.representativePhrases| =>
      Item(Key(entry.intentName, entry.representativePhrases[j]), entry.script))
  }

  /** All phrases of all intents, in table order. */
  function Work(scripts: seq<GoldenScript>): seq<Item> {
    if scripts == [] then [] else Work(scripts[..|scripts| - 1]) + Items(scripts[|scripts| - 1])
  }

  function KeysOf(items: seq<Item>): (keys: seq<Key>)
    ensures |keys| == |items| && forall i :: 0 <= i < |items| ==> keys[i] == items[i].key
  {
    seq(|items|, i requires 0 <= i < |items| => items[i].key)
  }

  /** Every phrase of every intent is one item of the work list. */
  lemma {:induction false} WorkLength(scripts: seq<GoldenScript>)
    ensures |Work(scripts)| == TotalEntries(scripts)
  {
    if scripts != [] {
      WorkLength(scripts[..|scripts| - 1]);
    }
  }

  /** The shipped data holds 3 + 4 + 4 + 3 + 3 = 17 phrases. */
  lemma GoldenTotal()
    ensures TotalEntries(GoldenScripts) == 17
  {
    var g := GoldenScripts;
    assert g[..1][..0] == [];
    assert TotalEntries(g[..1]) == 3;
    assert g[..2][..1] == g[..1];
    assert TotalEntries(g[..2]) == 7;
    assert g[..3][..2] == g[..2];
    assert TotalEntries(g[..3]) == 11;
    assert g[..4][..3] == g[..3];
    assert TotalEntries(g[..4]) == 14;
    assert g[..4] == g[..|g| - 1];
  }

  /** Processing one phrase: embed it, look it up, then update the row found or insert a new one. */
  function Step(st: State, item: Item, o: Oracles): (r: State)
    // each phrase increments exactly one of the two counters
    ensures (r.successCount == st.successCount + 1 && r.errorCount == st.errorCount) ||
            (r.successCount == st.successCount && r.errorCount == st.errorCount + 1)
    // a phrase counted as an error writes nothing
    ensures r.errorCount == st.errorCount + 1 ==> r.table == st.table && r.nextId == st.nextId
    // a failed embedding, or a lookup error other than "no rows", is an error
    ensures o.embed(item.key.phrase).None? ==> r.errorCount == st.errorCount + 1
    ensures o.lookupFault(item.key).Some? && o.lookupFault(item.key).value != NoRowsCode ==>
              r.errorCount == st.errorCount + 1
    // a success leaves the phrase's row holding its script and embedding, and no other row changed
    ensures r.successCount == st.successCount + 1 ==>
              && o.embed(item.key.phrase).Some?
              && item.key in r.table
              && r.table[item.key] ==
                 Row(r.table[item.key].id, item.script, o.embed(item.key.phrase).value)
              && r.table.Keys == st.table.Keys + {item.key}
              && (forall k :: k in st.table && k != item.key ==> r.table[k] == st.table[k])
    // a row that the lookup found is updated in place: same id, no new id used
    ensures r.successCount == st.successCount + 1 && o.lookupFault(item.key).None? && item.key in st.table ==>
              r.table[item.key].id == st.table[item.key].id && r.nextId == st.nextId
    // otherwise a new row with a fresh id is inserted
    ensures r.successCount == st.successCount + 1 && !(o.lookupFault(item.key).None? && item.key in st.table) ==>
              r.table[item.key].id == st.nextId && r.nextId == st.nextId + 1
  {
    match o.embed(item.key.phrase)
    case None => st.(errorCount := st.errorCount + 1)
    case Some(embedding) =>
      var fault := o.lookupFault(item.key);
      if fault.Some? && fault.value != NoRowsCode then st.(errorCount := st.errorCount + 1)
      else if o.writeFails(item.key) then st.(errorCount := st.errorCount + 1)
      else if fault.None? && item.key in st.table then
        st.(table := st.table[item.key := Row(st.table[item.key].id, item.script, embedding)],
            successCount := st.successCount + 1)
      else
        st.(table := st.table[item.key := Row(st.nextId, item.script, embedding)],
            nextId := st.nextId + 1, successCount := st.successCount + 1)
  }

  /** The effect of processing `items` in order. */
  function Run(st: State, items: seq<Item>, o: Oracles): State {
    if items == [] then st else Step(Run(st, items[..|items| - 1], o), items[|items| - 1], o)
  }

  /** The body of the inner loop for one phrase (the `try` block and its `catch`). */
  method ProcessPhrase(table0: Table, nextId0: int, successCount0: nat, errorCount0: nat, item: Item, o: Oracles)
    returns (table: Table, nextId: int, successCount: nat, errorCount: nat)
    ensures State(table, nextId, successCount, errorCount) ==
            Step(State(table0, nextId0, successCount0, errorCount0), item, o)
  {
    table, nextId, successCount, errorCount := table0, nextId0, successCount0, errorCount0;
    var key := item.key;
    var embedding := o.embed(key.phrase);
    if embedding.None? {
      errorCount := errorCount + 1;        // generateEmbedding threw
      return;
    }
    var checkError := o.lookupFault(key);
    if checkError.Some? && checkError.value != NoRowsCode {
      errorCount := errorCount + 1;        // the lookup error is rethrown
      return;
    }
    var error := o.writeFails(key);
    if checkError.None? && key in table {
      if !error {
        table := table[key := Row(table[key].id, item.script, embedding.value)];
      }
    } else if !error {
      table := table[key := Row(nextId, item.script, embedding.value)];
      nextId := nextId + 1;
    }
    if error {
      errorCount := errorCount + 1;
    } else {
      successCount := successCount + 1;
    }
  }

  /** `populatePlaybook`: the nested loops over intents and their phrases. `visited` lists the
      phrases in the order they are processed (the progress lines the script prints). */
  method PopulatePlaybook(scripts: seq<GoldenScript>, table0: Table, nextId0: int, o: Oracles)
    returns (table: Table, nextId: int, successCount: nat, errorCount: nat, entryCounter: nat, visited: seq<Key>)
    ensures visited == KeysOf(Work(scripts))
    ensures entryCounter == TotalEntries(scripts)
    ensures State(table, nextId, successCount, errorCount) == Run(State(table0, nextId0, 0, 0), Work(scripts), o)
    ensures successCount + errorCount == entryCounter
  {
    ghost var init := State(table0, nextId0, 0, 0);
    table, nextId, successCount, errorCount, entryCounter, visited := table0, nextId0, 0, 0, 0, [];
    var i := 0;
    while i < |scripts|
      invariant 0 <= i <= |scripts|
      invariant entryCounter == |Work(scripts[..i])|
      invariant visited == KeysOf(Work(scripts[..i]))
      invariant State(table, nextId, successCount, errorCount) == Run(init, Work(scripts[..i]), o)
    {
      var entry := scripts[i];
      ghost var done := Work(scripts[..i]);
      ghost var sofar := done;
      var j := 0;
      assert done + Items(entry)[..0] == done;
      while j < |entry.representativePhrases|
        invariant 0 <= j <= |entry.representativePhrases|
        invariant sofar == done + Items(entry)[..j]
        invariant entryCounter == |done| + j
        invariant visited == KeysOf(sofar)
        invariant State(table, nextId, successCount, errorCount) == Run(init, sofar, o)
      {
        var phrase := entry.representativePhrases[j];
        var key := Key(entry.intentName, phrase);
        entryCounter := entryCounter + 1;
        visited := visited + [key];
        table, nextId, successCount, errorCount :=
          ProcessPhrase(table, nextId, successCount, errorCount, Item(key, entry.script), o);
        ghost var item := Item(key, entry.script);
        RunSnoc(init, sofar, item, o);
        KeysOfSnoc(sofar, item);
        ItemsPrefixSnoc(done, entry, j);
        sofar := sofar + [item];
        j := j + 1;
      }
      assert Items(entry)[..j] == Items(entry);
      WorkSnoc(scripts, i);
      i := i + 1;
    }
    assert scripts[..i] == scripts;
    WorkLength(scripts);
    RunCounts(init, Work(scripts), o);
  }

  lemma RunSnoc(st: State, items: seq<Item>, item: Item, o: Oracles)
    ensures Run(st, items + [item], o) == Step(Run(st, items, o), item, o)
  {
    assert (items + [item])[..|items|] == items;
  }

  lemma ItemsPrefixSnoc(done: seq<Item>, entry: GoldenScript, j: nat)
    requires j < |entry.representativePhrases|
    ensures done + Items(entry)[..j + 1] ==
            (done + Items(entry)[..j]) + [Item(Key(entry.intentName, entry.representativePhrases[j]), entry.script)]
  {
    assert Items(entry)[..j + 1] == Items(entry)[..j] + [Items(entry)[j]];
  }

  lemma KeysOfSnoc(items: seq<Item>, item: Item)
    ensures KeysOf(items + [item]) == KeysOf(items) + [item.key]
  {
  }

  lemma WorkSnoc(scripts: seq<GoldenScript>, i: nat)
    requires i < |scripts|
    ensures Work(scripts[..i + 1]) == Work(scripts[..i]) + Items(scripts[i])
  {
    assert scripts[..i + 1][..i] == scripts[..i];
  }

  /** The counters together count every processed phrase: success + error = number of phrases. */
  lemma {:induction false} RunCounts(st: State, items: seq<Item>, o: Oracles)
    ensures Run(st, items, o).successCount + Run(st, items, o).errorCount ==
            st.successCount + st.errorCount + |items|
  {
    if items != [] {
      RunCounts(st, items[..|items| - 1], o);
    }
  }

  /** Every external call made for a phrase succeeds. */
  ghost predicate Clean(o: Oracles) {
    (forall p :: o.embed(p).Some?) && (forall k :: o.lookupFault(k).None?) && (forall k :: !o.writeFails(k))
  }

  /** Rows are never removed, and a row that exists keeps its id. */
  lemma {:induction false} RunKeepsRows(st: State, items: seq<Item>, o: Oracles)
    requires Clean(o)
    ensures st.table.Keys <= Run(st, items, o).table.Keys
    ensures forall k :: k in st.table ==> Run(st, items, o).table[k].id == st.table[k].id
  {
    if items != [] {
      RunKeepsRows(st, items[..|items| - 1], o);
    }
  }

  /** With every call succeeding, every processed phrase ends up with a row under its key. */
  lemma {:induction false} RunStoresEveryPhrase(st: State, items: seq<Item>, o: Oracles)
    requires Clean(o)
    ensures forall i :: 0 <= i < |items| ==> items[i].key in Run(st, items, o).table
    ensures Run(st, items, o).errorCount == st.errorCount
  {
    if items != [] {
      var init := items[..|items| - 1];
      RunStoresEveryPhrase(st, init, o);
      forall i | 0 <= i < |items| ensures items[i].key in Run(st, items, o).table {
        if i < |init| {
          assert items[i] == init[i];
        }
      }
    }
  }

  /** Rerunning over phrases that all have rows already inserts nothing: the key set and the id
      supply are unchanged and every row keeps its id, so no key is ever duplicated. */
  lemma {:induction false} RerunInsertsNothing(st: State, items: seq<Item>, o: Oracles)
    requires Clean(o)
    requires forall i :: 0 <= i < |items| ==> items[i].key in st.table
    ensures Run(st, items, o).table.Keys == st.table.Keys
    ensures Run(st, items, o).nextId == st.nextId
    ensures forall k :: k in st.table ==> Run(st, items, o).table[k].id == st.table[k].id
  {
    if items != [] {
      RerunInsertsNothing(st, items[..|items| - 1], o);
    }
  }

  /** Running the script twice with every call succeeding: the second run adds no row, takes no
      new id and keeps every id of the first run. */
  lemma PopulatingTwiceAddsNoRows(scripts: seq<GoldenScript>, st: State, o: Oracles)
    requires Clean(o)
    ensures var once := Run(st, Work(scripts), o);
            var twice := Run(once, Work(scripts), o);
            && twice.table.Keys == once.table.Keys
            && twice.nextId == once.nextId
            && (forall k :: k in once.table ==> twice.table[k].id == once.table[k].id)
  {
    var once := Run(st, Work(scripts), o);
    RunStoresEveryPhrase(st, Work(scripts), o);
    RerunInsertsNothing(once, Work(scripts), o);
  }
}

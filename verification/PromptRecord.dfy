// What a prompt starts from and what it reports: selected turns, seed messages, and the domains it used.
module PromptRecord {
  import opened Wrappers
  import opened Seqs
  import opened Catalog
  import opened Gateway

  datatype Turn = Turn(turnId: string, prompt: string, answer: string)

  datatype Role = UserRole | AssistantRole | ToolRole | ResourceRole

  datatype Message = Message(role: Role, content: string)

  datatype TurnError = TurnNotInConversation

  // ---- Selecting turns ----

  // `turns.filter(turn => seen.has(turn.turnId))`.
  function KeepTurns(turns: seq<Turn>, seen: set<string>): (kept: seq<Turn>) {
    if turns == [] then []
    else
      var earlier := KeepTurns(turns[..|turns| - 1], seen);
      var last := turns[|turns| - 1];
      if last.turnId in seen then earlier + [last] else earlier
  }

  function IdSet(ids: seq<string>): set<string> {
    set id | id in ids
  }

  // The selection the code decides on: repeated ids first, then the length comparison.
  function SelectionOf(turns: seq<Turn>, turnIds: Option<seq<string>>): Result<seq<Turn>, TurnError> {
    if turnIds.None? || turnIds.value == [] then Ok(turns)
    else if |IdSet(turnIds.value)| != |turnIds.value| then Err(TurnNotInConversation)
    else
      var kept := KeepTurns(turns, IdSet(turnIds.value));
      if |kept| == |IdSet(turnIds.value)| then Ok(kept) else Err(TurnNotInConversation)
  }

  lemma {:induction false} IdSetSize(ids: seq<string>)
    ensures |IdSet(ids)| <= |ids|
    ensures |IdSet(ids)| == |ids| <==> NoDuplicates(ids)
  {
    if ids == [] {
      assert IdSet(ids) == {};
    } else {
      var init, last := ids[..|ids| - 1], ids[|ids| - 1];
      IdSetSize(init);
      assert ids == init + [last];
      assert IdSet(ids) == IdSet(init) + {last};
      if NoDuplicates(ids) {
        assert last !in init;
      } else if NoDuplicates(init) {
        assert last in init;
      }
    }
  }

  // Selects turns the way the source does: a set of seen ids, then one filter and one length comparison.
  method SelectTurns(turns: seq<Turn>, turnIds: Option<seq<string>>) returns (r: Result<seq<Turn>, TurnError>)
    ensures r == SelectionOf(turns, turnIds)
  {
    if turnIds.None? || turnIds.value == [] {
      return Ok(turns);
    }
    var ids := turnIds.value;
    var seen: set<string> := {};
    for i := 0 to |ids|
      invariant seen == IdSet(ids[..i])
      invariant NoDuplicates(ids[..i])
    {
      assert ids[..i + 1] == ids[..i] + [ids[i]];
      IdSetSize(ids);
      if ids[i] in seen {
        assert ids[i] in ids[..i];
        assert !NoDuplicates(ids);
        return Err(TurnNotInConversation);
      }
      seen := seen + {ids[i]};
    }
    assert ids[..|ids|] == ids;
    IdSetSize(ids);
    var kept := KeepTurns(turns, seen);
    if |kept| != |seen| {
      return Err(TurnNotInConversation);
    }
    return Ok(kept);
  }

  ghost predicate DistinctTurnIds(turns: seq<Turn>) {
    forall i, j :: 0 <= i < j < |turns| ==> turns[i].turnId != turns[j].turnId
  }

  function TurnIdSet(turns: seq<Turn>): set<string> {
    set i | 0 <= i < |turns| :: turns[i].turnId
  }

  ghost predicate HasTurn(turns: seq<Turn>, id: string) {
    exists i :: 0 <= i < |turns| && turns[i].turnId == id
  }

  lemma TurnIdSetStep(turns: seq<Turn>)
    requires DistinctTurnIds(turns) && turns != []
    ensures var init, last := turns[..|turns| - 1], turns[|turns| - 1];
      TurnIdSet(turns) == TurnIdSet(init) + {last.turnId} && last.turnId !in TurnIdSet(init)
  {
    var init, last := turns[..|turns| - 1], turns[|turns| - 1];
    forall i | 0 <= i < |init|
      ensures init[i].turnId in TurnIdSet(turns)
    {
      assert turns[i] == init[i];
    }
    assert forall i :: 0 <= i < |init| ==> init[i].turnId == turns[i].turnId;
  }

  lemma {:induction false} KeptCount(turns: seq<Turn>, seen: set<string>)
    requires DistinctTurnIds(turns)
    ensures |KeepTurns(turns, seen)| == |TurnIdSet(turns) * seen|
  {
    if turns != [] {
      var init, last := turns[..|turns| - 1], turns[|turns| - 1];
      KeptCount(init, seen);
      assert turns == init + [last];
      TurnIdSetStep(turns);
      if last.turnId in seen {
        assert TurnIdSet(turns) * seen == TurnIdSet(init) * seen + {last.turnId};
      } else {
        assert TurnIdSet(turns) * seen == TurnIdSet(init) * seen;
      }
    }
  }

  lemma FullIntersection(a: set<string>, b: set<string>)
    ensures |a * b| == |b| <==> b <= a
  {
    assert a * b + (b - a) == b;
    assert |a * b| + |b - a| == |b|;
    if |a * b| == |b| {
      assert b - a == {};
    }
  }

  // With distinct turn ids, the length comparison alone accepts exactly the repeat-free requests whose ids all exist.
  lemma SelectionSucceedsExactly(turns: seq<Turn>, ids: seq<string>)
    requires DistinctTurnIds(turns) && ids != []
    ensures SelectionOf(turns, Some(ids)).Ok?
      <==> NoDuplicates(ids) && forall id :: id in ids ==> HasTurn(turns, id)
  {
    IdSetSize(ids);
    KeptCount(turns, IdSet(ids));
    FullIntersection(TurnIdSet(turns), IdSet(ids));
    assert IdSet(ids) <= TurnIdSet(turns) <==> forall id :: id in ids ==> HasTurn(turns, id) by {
      forall id
        ensures id in TurnIdSet(turns) <==> HasTurn(turns, id)
      {
      }
      assert forall id :: id in IdSet(ids) <==> id in ids;
    }
  }

  // Without distinct turn ids the comparison can be fooled: a doubled turn stands in for a missing one.
  lemma DoubledTurnHidesAMissingOne(a: string, b: string, turn: Turn)
    requires a != b && turn.turnId == a
    ensures SelectionOf([turn, turn], Some([a, b])) == Ok([turn, turn])
    ensures !HasTurn([turn, turn], b)
  {
    assert NoDuplicates([a, b]);
    IdSetSize([a, b]);
    assert a in IdSet([a, b]);
    var turns := [turn, turn];
    assert turns[..1] == [turn] && [turn][..0] == [];
    assert KeepTurns([turn], IdSet([a, b])) == [turn];
    assert KeepTurns(turns, IdSet([a, b])) == turns;
  }

  // The comparison decides the request as it should: repeat-free, and every id present.
  ghost predicate SelectionIsExact(turns: seq<Turn>, ids: seq<string>) {
    SelectionOf(turns, Some(ids)).Ok? <==> NoDuplicates(ids) && forall id :: id in ids ==> HasTurn(turns, id)
  }

  lemma {:induction false} SomeTurnIsKept(turns: seq<Turn>, i: nat)
    requires i < |turns|
    ensures |KeepTurns(turns, {turns[i].turnId})| >= 1
  {
    if i < |turns| - 1 {
      SomeTurnIsKept(turns[..|turns| - 1], i);
    }
  }

  lemma {:induction false} RepeatedIdKeepsTwo(turns: seq<Turn>) returns (id: string)
    requires !DistinctTurnIds(turns)
    ensures |KeepTurns(turns, {id})| >= 2
  {
    var init, last := turns[..|turns| - 1], turns[|turns| - 1];
    if DistinctTurnIds(init) {
      var i :| 0 <= i < |init| && init[i].turnId == last.turnId;
      id := last.turnId;
      SomeTurnIsKept(init, i);
    } else {
      id := RepeatedIdKeepsTwo(init);
    }
  }

  // The length of the longest turn id.
  function Longest(turns: seq<Turn>): (n: nat)
    ensures forall i :: 0 <= i < |turns| ==> |turns[i].turnId| <= n
  {
    if turns == [] then 0
    else
      var earlier, last := Longest(turns[..|turns| - 1]), |turns[|turns| - 1].turnId|;
      if last > earlier then last else earlier
  }

  // `count` different ids, all longer than `n`.
  function Padding(n: nat, count: nat): (ids: seq<string>)
    ensures |ids| == count
    ensures forall k :: 0 <= k < count ==> |ids[k]| == n + 1 + k
  {
    seq(count, (k: nat) => seq(n + 1 + k, (_: nat) => 'x'))
  }

  lemma {:induction false} KeepTurnsOf(turns: seq<Turn>, seen: set<string>, id: string)
    requires forall i :: 0 <= i < |turns| ==> (turns[i].turnId in seen <==> turns[i].turnId == id)
    ensures KeepTurns(turns, seen) == KeepTurns(turns, {id})
  {
    if turns != [] {
      KeepTurnsOf(turns[..|turns| - 1], seen, id);
    }
  }

  // As many ids as there are turns with the repeated one: that id and others that no turn has.
  function FoolingRequest(turns: seq<Turn>, id: string): (ids: seq<string>)
    requires |KeepTurns(turns, {id})| >= 2
    ensures |ids| == |KeepTurns(turns, {id})|
  {
    [id] + Padding(Longest(turns) + |id|, |KeepTurns(turns, {id})| - 1)
  }

  lemma FoolingRequestIsAccepted(turns: seq<Turn>, id: string)
    requires |KeepTurns(turns, {id})| >= 2
    ensures SelectionOf(turns, Some(FoolingRequest(turns, id))).Ok?
    ensures !HasTurn(turns, FoolingRequest(turns, id)[1])
  {
    var ids := FoolingRequest(turns, id);
    var n := Longest(turns) + |id|;
    assert forall k :: 0 < k < |ids| ==> |ids[k]| == n + k;
    IdSetSize(ids);
    assert ids[0] in IdSet(ids);
    forall i | 0 <= i < |turns|
      ensures turns[i].turnId in IdSet(ids) <==> turns[i].turnId == id
    {
      assert |turns[i].turnId| <= n;
    }
    KeepTurnsOf(turns, IdSet(ids), id);
  }

  // The length comparison is right about every request if and only if the turn ids of the conversation are distinct.
  lemma SelectionIsExactForDistinctIdsOnly(turns: seq<Turn>)
    ensures (forall ids :: ids != [] ==> SelectionIsExact(turns, ids)) <==> DistinctTurnIds(turns)
  {
    if DistinctTurnIds(turns) {
      forall ids | ids != []
        ensures SelectionIsExact(turns, ids)
      {
        SelectionSucceedsExactly(turns, ids);
      }
    } else {
      var id := RepeatedIdKeepsTwo(turns);
      var ids := FoolingRequest(turns, id);
      FoolingRequestIsAccepted(turns, id);
      assert ids[1] in ids && !SelectionIsExact(turns, ids);
    }
  }

  // Without a request, or with an empty one, every turn is taken.
  lemma NoRequestSelectsEveryTurn(turns: seq<Turn>)
    ensures SelectionOf(turns, None) == Ok(turns) && SelectionOf(turns, Some([])) == Ok(turns)
  {
  }

  // `inner` picks positions of `outer` in increasing order.
  ghost predicate Embeds(inner: seq<Turn>, outer: seq<Turn>, positions: seq<int>) {
    && |positions| == |inner|
    && (forall k :: 0 <= k < |positions| ==> 0 <= positions[k] < |outer| && outer[positions[k]] == inner[k])
    && (forall k, l :: 0 <= k < l < |positions| ==> positions[k] < positions[l])
  }

  lemma {:induction false} KeptInSavedOrder(turns: seq<Turn>, seen: set<string>) returns (positions: seq<int>)
    ensures Embeds(KeepTurns(turns, seen), turns, positions)
  {
    positions := [];
    if turns != [] {
      var init, last := turns[..|turns| - 1], turns[|turns| - 1];
      positions := KeptInSavedOrder(init, seen);
      if last.turnId in seen {
        positions := positions + [|turns| - 1];
      }
    }
  }

  lemma {:induction false} KeptMembers(turns: seq<Turn>, seen: set<string>)
    ensures forall turn :: turn in KeepTurns(turns, seen) <==> turn in turns && turn.turnId in seen
  {
    if turns != [] {
      KeptMembers(turns[..|turns| - 1], seen);
      assert turns == turns[..|turns| - 1] + [turns[|turns| - 1]];
    }
  }

  // A successful selection holds exactly the requested turns, in saved order, whatever order they were asked in.
  lemma SelectionKeepsSavedOrder(turns: seq<Turn>, ids: seq<string>, reordered: seq<string>) returns (positions: seq<int>)
    requires ids != [] && multiset(ids) == multiset(reordered)
    requires SelectionOf(turns, Some(ids)).Ok?
    ensures Embeds(SelectionOf(turns, Some(ids)).value, turns, positions)
    ensures forall turn :: turn in SelectionOf(turns, Some(ids)).value <==> turn in turns && turn.turnId in ids
    ensures SelectionOf(turns, Some(reordered)) == SelectionOf(turns, Some(ids))
  {
    positions := KeptInSavedOrder(turns, IdSet(ids));
    KeptMembers(turns, IdSet(ids));
    assert forall id :: id in ids <==> id in multiset(ids);
    assert forall id :: id in reordered <==> id in multiset(reordered);
    assert IdSet(ids) == IdSet(reordered);
    assert |ids| == |multiset(ids)| == |reordered|;
  }

  // ---- Seeding messages ----

  // Each turn is its prompt by the user and its answer by the assistant, in order; the new prompt comes last, by the user.
  predicate Seeds(messages: seq<Message>, turns: seq<Turn>, prompt: string) {
    && |messages| == 2 * |turns| + 1
    && (forall i :: 0 <= i < |turns| ==>
          messages[2 * i] == Message(UserRole, turns[i].prompt) && messages[2 * i + 1] == Message(AssistantRole, turns[i].answer))
    && messages[2 * |turns|] == Message(UserRole, prompt)
  }

  function SeedOf(turns: seq<Turn>, prompt: string): (messages: seq<Message>)
    ensures |messages| == 2 * |turns| + 1
  {
    TurnMessages(turns) + [Message(UserRole, prompt)]
  }

  function TurnMessages(turns: seq<Turn>): (messages: seq<Message>)
    ensures |messages| == 2 * |turns|
    ensures forall i :: 0 <= i < |turns| ==>
      messages[2 * i] == Message(UserRole, turns[i].prompt) && messages[2 * i + 1] == Message(AssistantRole, turns[i].answer)
  {
    if turns == [] then []
    else
      TurnMessages(turns[..|turns| - 1])
      + [Message(UserRole, turns[|turns| - 1].prompt), Message(AssistantRole, turns[|turns| - 1].answer)]
  }

  lemma SeedsInOrder(turns: seq<Turn>, prompt: string)
    ensures Seeds(SeedOf(turns, prompt), turns, prompt)
  {
  }

  method SeedMessages(turns: seq<Turn>, prompt: string) returns (messages: seq<Message>)
    ensures messages == SeedOf(turns, prompt) && Seeds(messages, turns, prompt)
  {
    messages := [];
    for i := 0 to |turns|
      invariant messages == TurnMessages(turns[..i])
    {
      assert turns[..i + 1][..i] == turns[..i];
      messages := messages + [Message(UserRole, turns[i].prompt), Message(AssistantRole, turns[i].answer)];
    }
    assert turns[..|turns|] == turns;
    messages := messages + [Message(UserRole, prompt)];
    SeedsInOrder(turns, prompt);
  }

  // ---- Domains ----

  datatype Domain = Domain(name: string, tools: seq<string>, resources: seq<string>)

  datatype DomainNames = DomainNames(tools: seq<string>, resources: seq<string>)

  function DomainSeq(used: seq<Selection>): (names: seq<string>)
    ensures |names| == |used|
  {
    seq(|used|, i requires 0 <= i < |used| => used[i].domain)
  }

  // Names used in one domain under one kind, in order of use.
  function NamesIn(used: seq<Selection>, domain: string, kind: Kind): (names: seq<string>)
    ensures forall name :: name in names <==> Selection(domain, name, kind) in used
  {
    if used == [] then []
    else
      var earlier := NamesIn(used[..|used| - 1], domain, kind);
      var last := used[|used| - 1];
      assert used == used[..|used| - 1] + [last];
      if last.domain == domain && last.kind == kind then earlier + [last.name] else earlier
  }

  function NamesOfDomain(used: seq<Selection>, domain: string): DomainNames {
    DomainNames(FirstSeen(NamesIn(used, domain, Tool)), FirstSeen(NamesIn(used, domain, Resource)))
  }

  // Domains in first-use order, each with its tools and resources in first-use order.
  function DomainsOf(used: seq<Selection>): seq<Domain> {
    var order := FirstSeen(DomainSeq(used));
    seq(|order|, i requires 0 <= i < |order| =>
      Domain(order[i], NamesOfDomain(used, order[i]).tools, NamesOfDomain(used, order[i]).resources))
  }

  // The map the grouping loop keeps.
  ghost predicate Grouped(used: seq<Selection>, order: seq<string>, byDomain: map<string, DomainNames>) {
    && order == FirstSeen(DomainSeq(used))
    && (forall domain :: domain in byDomain <==> domain in order)
    && (forall domain :: domain in byDomain ==> byDomain[domain] == NamesOfDomain(used, domain))
  }

  lemma NamesInStep(used: seq<Selection>, item: Selection, domain: string, kind: Kind)
    ensures NamesIn(used + [item], domain, kind) ==
      if item.domain == domain && item.kind == kind then NamesIn(used, domain, kind) + [item.name]
      else NamesIn(used, domain, kind)
  {
    assert (used + [item])[..|used|] == used;
  }

  lemma NamesOfOtherDomains(used: seq<Selection>, item: Selection, domain: string)
    requires item.domain != domain
    ensures NamesOfDomain(used + [item], domain) == NamesOfDomain(used, domain)
  {
    NamesInStep(used, item, domain, Tool);
    NamesInStep(used, item, domain, Resource);
  }

  // Pushing a name unless it is there already.
  function Push(names: seq<string>, name: string): seq<string> {
    if name in names then names else names + [name]
  }

  lemma NamesOfOwnDomain(used: seq<Selection>, item: Selection)
    ensures NamesOfDomain(used + [item], item.domain) ==
      var before := NamesOfDomain(used, item.domain);
      if item.kind == Tool then DomainNames(Push(before.tools, item.name), before.resources)
      else DomainNames(before.tools, Push(before.resources, item.name))
  {
    NamesInStep(used, item, item.domain, Tool);
    NamesInStep(used, item, item.domain, Resource);
    FirstSeenStep(NamesIn(used, item.domain, item.kind), item.name);
  }

  lemma UsedDomainsAreSeen(used: seq<Selection>, item: Selection)
    requires item in used
    ensures item.domain in FirstSeen(DomainSeq(used))
  {
    var k :| 0 <= k < |used| && used[k] == item;
    assert DomainSeq(used)[k] == item.domain;
    FirstSeenKeepsElements(DomainSeq(used));
  }

  lemma {:induction false} NoNames(used: seq<Selection>, domain: string, kind: Kind)
    requires forall k :: 0 <= k < |used| ==> used[k].domain != domain
    ensures NamesIn(used, domain, kind) == []
  {
    if used != [] {
      NoNames(used[..|used| - 1], domain, kind);
    }
  }

  lemma NothingUsedYet(used: seq<Selection>, domain: string)
    requires domain !in FirstSeen(DomainSeq(used))
    ensures NamesOfDomain(used, domain) == DomainNames([], [])
  {
    forall k | 0 <= k < |used|
      ensures used[k].domain != domain
    {
      UsedDomainsAreSeen(used, used[k]);
    }
    NoNames(used, domain, Tool);
    NoNames(used, domain, Resource);
  }

  lemma GroupedStep(used: seq<Selection>, item: Selection, order: seq<string>, byDomain: map<string, DomainNames>)
    requires Grouped(used, order, byDomain)
    ensures Grouped(used + [item], Push(order, item.domain),
                    byDomain[item.domain := NamesOfDomain(used + [item], item.domain)])
  {
    assert DomainSeq(used + [item]) == DomainSeq(used) + [item.domain];
    FirstSeenStep(DomainSeq(used), item.domain);
    forall domain | domain in byDomain && domain != item.domain
      ensures NamesOfDomain(used + [item], domain) == byDomain[domain]
    {
      NamesOfOtherDomains(used, item, domain);
    }
  }

  // `toDomains`: one pass that fills `order` and `byDomain`, then one that lays them out.
  method ToDomains(used: seq<Selection>) returns (domains: seq<Domain>)
    ensures domains == DomainsOf(used)
  {
    var order: seq<string> := [];
    var byDomain: map<string, DomainNames> := map[];
    for i := 0 to |used|
      invariant Grouped(used[..i], order, byDomain)
    {
      var item := used[i];
      assert used[..i + 1] == used[..i] + [item];
      GroupedStep(used[..i], item, order, byDomain);
      NamesOfOwnDomain(used[..i], item);
      var entry: DomainNames;
      if item.domain in byDomain {
        entry := byDomain[item.domain];
      } else {
        NothingUsedYet(used[..i], item.domain);
        entry := DomainNames([], []);
        order := order + [item.domain];
      }
      if item.kind == Tool {
        entry := DomainNames(Push(entry.tools, item.name), entry.resources);
      } else {
        entry := DomainNames(entry.tools, Push(entry.resources, item.name));
      }
      byDomain := byDomain[item.domain := entry];
    }
    assert used[..|used|] == used;
    domains := [];
    for i := 0 to |order|
      invariant domains == DomainsOf(used)[..i]
    {
      assert order[i] in order;
      domains := domains + [Domain(order[i], byDomain[order[i]].tools, byDomain[order[i]].resources)];
    }
  }

  function NamesUnder(domain: Domain, kind: Kind): seq<string> {
    if kind == Tool then domain.tools else domain.resources
  }

  // Entry `i` lists the name of `item` under its kind.
  ghost predicate ListsItem(domains: seq<Domain>, i: int, item: Selection) {
    0 <= i < |domains| && domains[i].name == item.domain && item.name in NamesUnder(domains[i], item.kind)
  }

  lemma EntryListsExactlyItsItems(used: seq<Selection>, i: nat, item: Selection)
    requires i < |DomainsOf(used)| && DomainsOf(used)[i].name == item.domain
    ensures ListsItem(DomainsOf(used), i, item) <==> item in used
  {
    FirstSeenKeepsElements(NamesIn(used, item.domain, item.kind));
  }

  // Regrouping loses nothing, adds nothing and repeats nothing: an item was used exactly when the one entry of its
  // domain lists its name under its kind.
  lemma DomainsAreLossless(used: seq<Selection>, item: Selection)
    ensures item in used <==> exists i :: ListsItem(DomainsOf(used), i, item)
    ensures forall i, j :: 0 <= i < j < |DomainsOf(used)| ==> DomainsOf(used)[i].name != DomainsOf(used)[j].name
  {
    var order, domains := FirstSeen(DomainSeq(used)), DomainsOf(used);
    FirstSeenKeepsElements(DomainSeq(used));
    if item in used {
      UsedDomainsAreSeen(used, item);
      var i :| 0 <= i < |order| && order[i] == item.domain;
      EntryListsExactlyItsItems(used, i, item);
    }
    if exists i :: ListsItem(domains, i, item) {
      var i :| ListsItem(domains, i, item);
      EntryListsExactlyItsItems(used, i, item);
    }
  }

  lemma NamesAreNotRepeated(used: seq<Selection>, i: nat, kind: Kind)
    requires i < |DomainsOf(used)|
    ensures NoDuplicates(NamesUnder(DomainsOf(used)[i], kind))
  {
    FirstSeenKeepsElements(NamesIn(used, DomainsOf(used)[i].name, kind));
  }

  // ---- First-use order ----

  // Item `p` is the first one used in `domain`.
  ghost predicate FirstInDomain(used: seq<Selection>, p: int, domain: string) {
    && 0 <= p < |used| && used[p].domain == domain
    && forall k :: 0 <= k < p ==> used[k].domain != domain
  }

  // Item `p` is the first use of `item`.
  ghost predicate FirstUse(used: seq<Selection>, p: int, item: Selection) {
    && 0 <= p < |used| && used[p] == item
    && forall k :: 0 <= k < p ==> used[k] != item
  }

  lemma FirstInDomainAt(used: seq<Selection>, p: int, domain: string)
    requires FirstAt(DomainSeq(used), p, domain)
    ensures FirstInDomain(used, p, domain)
  {
    var names := DomainSeq(used);
    forall k | 0 <= k < p
      ensures used[k].domain != domain
    {
      assert names[k] == names[..p][k];
    }
  }

  // Of two entries, the domain of the earlier one was used first.
  lemma DomainsKeepFirstUseOrder(used: seq<Selection>, i: nat, j: nat) returns (p: nat, q: nat)
    requires i < j < |DomainsOf(used)|
    ensures p < q
    ensures FirstInDomain(used, p, DomainsOf(used)[i].name) && FirstInDomain(used, q, DomainsOf(used)[j].name)
  {
    p, q := FirstSeenOrder(DomainSeq(used), i, j);
    FirstInDomainAt(used, p, DomainsOf(used)[i].name);
    FirstInDomainAt(used, q, DomainsOf(used)[j].name);
  }

  // Where the names of a domain and kind were used, as positions in order.
  function PlacesIn(used: seq<Selection>, domain: string, kind: Kind): (places: seq<nat>) {
    if used == [] then []
    else
      var earlier := PlacesIn(used[..|used| - 1], domain, kind);
      var last := used[|used| - 1];
      if last.domain == domain && last.kind == kind then earlier + [|used| - 1] else earlier
  }

  // The places go with the names, one by one, in order.
  lemma {:induction false} PlacesFollowNames(used: seq<Selection>, domain: string, kind: Kind)
    ensures var places, names := PlacesIn(used, domain, kind), NamesIn(used, domain, kind);
      && |places| == |names|
      && (forall i :: 0 <= i < |places| ==>
            places[i] < |used| && used[places[i]] == Selection(domain, names[i], kind))
      && (forall i, j :: 0 <= i < j < |places| ==> places[i] < places[j])
  {
    if used != [] {
      PlacesFollowNames(used[..|used| - 1], domain, kind);
    }
  }

  lemma {:induction false} EveryUseHasItsPlace(used: seq<Selection>, k: nat)
    requires k < |used|
    ensures k in PlacesIn(used, used[k].domain, used[k].kind)
  {
    if k < |used| - 1 {
      EveryUseHasItsPlace(used[..|used| - 1], k);
    }
  }

  // A use before the place of name `i` is the use of an earlier name.
  lemma EarlierUseIsAnEarlierName(used: seq<Selection>, domain: string, kind: Kind, i: nat, k: nat) returns (at: nat)
    requires i < |PlacesIn(used, domain, kind)| && k < PlacesIn(used, domain, kind)[i] && k < |used|
    requires used[k].domain == domain && used[k].kind == kind
    ensures at < i && at < |NamesIn(used, domain, kind)| && NamesIn(used, domain, kind)[at] == used[k].name
  {
    PlacesFollowNames(used, domain, kind);
    EveryUseHasItsPlace(used, k);
    at :| 0 <= at < |PlacesIn(used, domain, kind)| && PlacesIn(used, domain, kind)[at] == k;
  }

  // The first time a name is listed is the first use of its item.
  lemma FirstNameIsFirstUse(used: seq<Selection>, domain: string, kind: Kind, name: string, i: int)
    requires FirstAt(NamesIn(used, domain, kind), i, name)
    requires |PlacesIn(used, domain, kind)| == |NamesIn(used, domain, kind)|
    ensures FirstUse(used, PlacesIn(used, domain, kind)[i], Selection(domain, name, kind))
  {
    PlacesFollowNames(used, domain, kind);
    var place, names := PlacesIn(used, domain, kind)[i], NamesIn(used, domain, kind);
    assert forall at :: 0 <= at < i ==> names[at] == names[..i][at];
    forall k | 0 <= k < place && used[k].domain == domain && used[k].kind == kind
      ensures used[k].name != name
    {
      var at := EarlierUseIsAnEarlierName(used, domain, kind, i, k);
    }
  }

  // Of two names under one domain and kind, the earlier one was used first.
  lemma NamesKeepFirstUseOrder(used: seq<Selection>, d: nat, kind: Kind, i: nat, j: nat) returns (p: nat, q: nat)
    requires d < |DomainsOf(used)| && i < j < |NamesUnder(DomainsOf(used)[d], kind)|
    ensures p < q
    ensures var domain := DomainsOf(used)[d];
      && FirstUse(used, p, Selection(domain.name, NamesUnder(domain, kind)[i], kind))
      && FirstUse(used, q, Selection(domain.name, NamesUnder(domain, kind)[j], kind))
  {
    var domain := DomainsOf(used)[d];
    PlacesFollowNames(used, domain.name, kind);
    var a, b := FirstSeenOrder(NamesIn(used, domain.name, kind), i, j);
    FirstNameIsFirstUse(used, domain.name, kind, NamesUnder(domain, kind)[i], a);
    FirstNameIsFirstUse(used, domain.name, kind, NamesUnder(domain, kind)[j], b);
    p, q := PlacesIn(used, domain.name, kind)[a], PlacesIn(used, domain.name, kind)[b];
  }
}

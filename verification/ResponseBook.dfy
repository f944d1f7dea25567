/** What a managed session knows of the provider's responses, items and contents. */
module ResponseBook {
  import opened Common
  import opened SessionEvents

  datatype Book = Book(
    responses: set<Id>, order: seq<Id>, terminal: set<Id>, cancelled: set<Id>,
    items: set<(Id, Id)>, functionItems: set<(Id, Id, int)>, completedItems: set<(Id, Id)>,
    contents: set<Content>, completedContents: set<Content>)

  const BLANK := Book({}, [], {}, {}, {}, {}, {}, {}, {})

  function Live(b: Book): set<Id> {
    b.responses - b.terminal
  }

  /** `_current_response`: the newest response that is not terminal. */
  function Current(order: seq<Id>, terminal: set<Id>): Option<Id>
    decreases |order|
  {
    if order == [] then None
    else if order[|order| - 1] !in terminal then Some(order[|order| - 1])
    else Current(order[..|order| - 1], terminal)
  }

  /** A response may start when it is new and every live one is cancelled, at most one of them. */
  predicate MayIntroduce(b: Book, r: Id) {
    && r !in b.responses && r !in b.terminal
    && |Live(b)| < 2
    && Live(b) <= b.cancelled
  }

  function Introduce(b: Book, r: Id): Book {
    b.(responses := b.responses + {r}, order := b.order + [r])
  }

  function Cancel(b: Book): Book {
    match Current(b.order, b.terminal)
    case None => b
    case Some(r) => b.(cancelled := b.cancelled + {r})
  }

  // ---- what every operation keeps ----

  ghost predicate WellKept(b: Book) {
    && Distinct(b.order) && Elements(b.order) == b.responses
    && b.terminal <= b.responses && b.cancelled <= b.responses
    && |Live(b)| <= 2
    && (forall r :: r in Live(b) && r !in b.cancelled ==> Current(b.order, b.terminal) == Some(r))
    && (forall i :: i in b.items ==> i.0 in b.responses)
    && (forall i :: i in b.functionItems ==> (i.0, i.1) in b.items)
    && (forall c :: c in b.contents ==> (c.response, c.item) in b.items)
    && b.completedItems <= b.items && b.completedContents <= b.contents
  }

  lemma BlankIsWellKept()
    ensures WellKept(BLANK)
  {
  }

  lemma IntroduceKeeps(b: Book, r: Id)
    requires WellKept(b) && MayIntroduce(b, r)
    ensures WellKept(Introduce(b, r))
  {
    var b' := Introduce(b, r);
    assert Live(b') == Live(b) + {r};
    NewestIsCurrent(b.order, r, b.terminal);
    LongerOrder(b.order, r);
    assert forall x :: x in Live(b) ==> x in b'.cancelled;
  }

  /** A new response is let in exactly when the structure stays well kept with it: no stricter, no
      laxer. */
  lemma IntroducesExactly(b: Book, r: Id)
    requires WellKept(b) && r !in b.responses
    ensures MayIntroduce(b, r) <==> WellKept(Introduce(b, r))
    ensures Live(Introduce(b, r)) == Live(b) + {r}
  {
    var b' := Introduce(b, r);
    assert Live(b') == Live(b) + {r};
    if WellKept(b') {
      assert |Live(b')| == |Live(b)| + 1;
      NewestIsCurrent(b.order, r, b.terminal);
      forall x | x in Live(b) ensures x in b.cancelled {
        assert x in Live(b');
      }
    }
    if MayIntroduce(b, r) {
      IntroduceKeeps(b, r);
    }
  }

  /** Cancelling marks exactly the newest live response, if there is one. */
  lemma CancelsExactly(b: Book)
    requires WellKept(b)
    ensures Live(b) == {} ==> Cancel(b) == b
    ensures Live(b) != {} ==>
      exists k :: 0 <= k < |b.order| && b.order[k] in Live(b)
               && (forall j :: k < j < |b.order| ==> b.order[j] in b.terminal)
               && Cancel(b) == b.(cancelled := b.cancelled + {b.order[k]})
  {
    CurrentIsNewestLive(b.order, b.terminal);
    forall r ensures r in b.order <==> r in b.responses {
      assert r in b.order <==> r in Elements(b.order);
    }
    if Live(b) != {} {
      var r :| r in Live(b);
      assert r in b.order;
    }
  }

  lemma NewestIsCurrent(order: seq<Id>, r: Id, terminal: set<Id>)
    requires r !in terminal
    ensures Current(order + [r], terminal) == Some(r)
  {
  }

  lemma LongerOrder(order: seq<Id>, r: Id)
    requires Distinct(order) && r !in Elements(order)
    ensures Distinct(order + [r]) && Elements(order + [r]) == Elements(order) + {r}
  {
    forall i | 0 <= i < |order| ensures order[i] != r {
      assert order[i] in Elements(order);
    }
  }

  lemma FinishKeeps(b: Book, r: Id)
    requires WellKept(b) && r in b.responses
    ensures WellKept(b.(terminal := b.terminal + {r}))
  {
    var b' := b.(terminal := b.terminal + {r});
    assert Live(b') <= Live(b);
    FewerMembers(Live(b'), Live(b));
    if Current(b.order, b.terminal) != Some(r) {
      CurrentOutlives(b.order, b.terminal, r);
    }
  }

  /** Finishing another response does not change which one is current. */
  lemma {:induction false} CurrentOutlives(order: seq<Id>, terminal: set<Id>, r: Id)
    requires Current(order, terminal) != Some(r)
    ensures Current(order, terminal + {r}) == Current(order, terminal)
    decreases |order|
  {
    if order != [] && order[|order| - 1] in terminal {
      CurrentOutlives(order[..|order| - 1], terminal, r);
    }
  }

  lemma {:induction false} FewerMembers(a: set<Id>, b: set<Id>)
    requires a <= b
    ensures |a| <= |b|
    decreases |a|
  {
    if a != {} {
      var x :| x in a;
      FewerMembers(a - {x}, b - {x});
    }
  }

  lemma CancelKeeps(b: Book)
    requires WellKept(b)
    ensures WellKept(Cancel(b))
  {
    CurrentIsNewestLive(b.order, b.terminal);
    if Current(b.order, b.terminal).Some? {
      assert Current(b.order, b.terminal).value in Elements(b.order);
    }
  }

  /** The current response is live and every response after it in order is terminal. */
  lemma {:induction false} CurrentIsNewestLive(order: seq<Id>, terminal: set<Id>)
    ensures Current(order, terminal).None? <==> forall r :: r in order ==> r in terminal
    ensures Current(order, terminal).Some? ==>
      exists k :: 0 <= k < |order| && order[k] == Current(order, terminal).value && order[k] !in terminal
               && forall j :: k < j < |order| ==> order[j] in terminal
    decreases |order|
  {
    if order != [] {
      var init := order[..|order| - 1];
      assert order == init + [order[|order| - 1]];
      if order[|order| - 1] in terminal {
        CurrentIsNewestLive(init, terminal);
        if Current(init, terminal).Some? {
          var k :| 0 <= k < |init| && init[k] == Current(init, terminal).value && init[k] !in terminal
                && forall j :: k < j < |init| ==> init[j] in terminal;
          assert order[k] == Current(order, terminal).value;
          assert forall j :: k < j < |order| ==> order[j] in terminal;
        }
      } else {
        assert order[|order| - 1] in order;
      }
    }
  }

  /** At most two responses are live, at most one of them is not cancelled, and that one is the
      current response; there is a current response exactly while one is live. */
  lemma LiveResponses(b: Book, r: Id, r': Id)
    requires WellKept(b)
    ensures |Live(b)| <= 2
    ensures r in Live(b) && r !in b.cancelled && r' in Live(b) && r' !in b.cancelled ==> r == r'
    ensures r in Live(b) && r !in b.cancelled ==> Current(b.order, b.terminal) == Some(r)
    ensures Current(b.order, b.terminal).Some? <==> Live(b) != {}
    ensures Current(b.order, b.terminal).Some? ==> Current(b.order, b.terminal).value in Live(b)
  {
    CurrentIsNewestLive(b.order, b.terminal);
    forall r ensures r in b.order <==> r in b.responses {
      assert r in b.order <==> r in Elements(b.order);
    }
    if Live(b) != {} {
      var r :| r in Live(b);
      assert r in b.order;
    }
  }

  // ---- as the session's own fields ----

  /** The structures a session knows of. Its sets are changed by the session's checks. */
  class Ledger {
    var responses: set<Id>
    var responseOrder: seq<Id>
    var terminalResponses: set<Id>
    var cancelledResponses: set<Id>
    var items: set<(Id, Id)>
    var functionCallItems: set<(Id, Id, int)>
    var completedItems: set<(Id, Id)>
    var contents: set<Content>
    var completedContents: set<Content>

    ghost function Model(): Book
      reads this
    {
      Book(responses, responseOrder, terminalResponses, cancelledResponses, items, functionCallItems,
           completedItems, contents, completedContents)
    }

    constructor ()
      ensures Model() == BLANK
    {
      responses, responseOrder, terminalResponses, cancelledResponses := {}, [], {}, {};
      items, functionCallItems, completedItems, contents, completedContents := {}, {}, {}, {}, {};
    }

    /** Start a response, if the live ones allow it. */
    method Begin(r: Id) returns (ok: bool)
      modifies this
      ensures ok == MayIntroduce(old(Model()), r)
      ensures Model() == if ok then Introduce(old(Model()), r) else old(Model())
    {
      if r in responses || r in terminalResponses {
        return false;
      }
      var live := responses - terminalResponses;
      if |live| >= 2 || (live != {} && !(live <= cancelledResponses)) {
        return false;
      }
      responses := responses + {r};
      responseOrder := responseOrder + [r];
      return true;
    }

    /** `_current_response`: search the order backwards. */
    method CurrentResponse() returns (r: Option<Id>)
      ensures r == Current(responseOrder, terminalResponses)
    {
      var k := |responseOrder|;
      assert responseOrder[..k] == responseOrder;
      while k > 0
        invariant 0 <= k <= |responseOrder|
        invariant Current(responseOrder, terminalResponses) == Current(responseOrder[..k], terminalResponses)
      {
        k := k - 1;
        assert responseOrder[..k + 1][..k] == responseOrder[..k];
        if responseOrder[k] !in terminalResponses {
          return Some(responseOrder[k]);
        }
      }
      return None;
    }

    method CancelCurrent() returns (r: Option<Id>)
      modifies this
      ensures r == Current(old(responseOrder), old(terminalResponses))
      ensures Model() == Cancel(old(Model()))
    {
      r := CurrentResponse();
      if r.Some? {
        cancelledResponses := cancelledResponses + {r.value};
      }
    }

    method Finish(r: Id)
      modifies this
      ensures Model() == old(Model()).(terminal := old(terminalResponses) + {r})
    {
      terminalResponses := terminalResponses + {r};
    }

    method AddItem(item: (Id, Id))
      modifies this
      ensures Model() == old(Model()).(items := old(items) + {item})
    {
      items := items + {item};
    }

    method AddFunctionItem(item: (Id, Id, int))
      modifies this
      ensures Model() == old(Model()).(functionItems := old(functionCallItems) + {item})
    {
      functionCallItems := functionCallItems + {item};
    }

    method AddContent(content: Content)
      modifies this
      ensures Model() == old(Model()).(contents := old(contents) + {content})
    {
      contents := contents + {content};
    }

    method CompleteContent(content: Content)
      modifies this
      ensures Model() == old(Model()).(completedContents := old(completedContents) + {content})
    {
      completedContents := completedContents + {content};
    }

    method CompleteItem(item: (Id, Id))
      modifies this
      ensures Model() == old(Model()).(completedItems := old(completedItems) + {item})
    {
      completedItems := completedItems + {item};
    }
  }
}

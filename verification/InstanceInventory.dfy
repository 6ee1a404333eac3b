/** The proof that no instance of a job is alive: a release fence in time, and a complete paginated
    inventory read after it. */
module InstanceInventory {
  import opened Wrappers
  import opened U64

  const MAX_PAGES: nat := 32
  const LAUNCH_LIFETIME: nat := 900

  /** `named`: it has an identifier; `tagged`: it carries the job's tag. */
  datatype Instance = Instance(named: bool, terminated: bool, tagged: bool)

  /** One answer: instances and, unless it is the last page, a continuation token (0 is empty). */
  datatype Page = Page(instances: seq<Instance>, next: Option<nat>)

  /** The service's answer to the `call`-th request with the given token, or a failure. */
  type Inventory = (nat, Option<nat>) -> Option<Page>

  datatype Answer = NoneActive | MaybeActive | Unavailable

  predicate Gone(i: Instance) {
    i.named && i.terminated && i.tagged
  }

  predicate AllGone(page: Page) {
    forall k :: 0 <= k < |page.instances| ==> Gone(page.instances[k])
  }

  /** The fence, if it fits the clock's range. */
  function Fence(launchUntil: nat, ambiguity: Option<nat>): Option<nat> {
    if ambiguity.None? || ambiguity.value == 0 || launchUntil + LAUNCH_LIFETIME + ambiguity.value > U64_MAX then None
    else Some(launchUntil + LAUNCH_LIFETIME + ambiguity.value)
  }

  function TokenAt(pages: seq<Page>, k: nat): Option<nat>
    requires k <= |pages|
  {
    if k == 0 then None else pages[k - 1].next
  }

  /** Each page answers the token of the one before. */
  predicate Walked(inventory: Inventory, pages: seq<Page>) {
    forall k :: 0 <= k < |pages| ==> AnsweredAt(inventory, pages, k)
  }

  predicate AnsweredAt(inventory: Inventory, pages: seq<Page>, k: nat)
    requires k < |pages|
  {
    inventory(k, TokenAt(pages, k)) == Some(pages[k])
  }

  lemma StillAnswered(inventory: Inventory, pages: seq<Page>, page: Page, k: nat)
    requires k < |pages|
    ensures AnsweredAt(inventory, pages + [page], k) == AnsweredAt(inventory, pages, k)
  {
    assert TokenAt(pages + [page], k) == TokenAt(pages, k);
  }

  lemma LastAnswered(inventory: Inventory, pages: seq<Page>, page: Page)
    ensures AnsweredAt(inventory, pages + [page], |pages|) <==>
            inventory(|pages|, TokenAt(pages, |pages|)) == Some(page)
  {
    assert TokenAt(pages + [page], |pages|) == TokenAt(pages, |pages|);
  }

  predicate AllPagesGone(pages: seq<Page>) {
    forall k :: 0 <= k < |pages| ==> AllGone(pages[k])
  }

  /** Every page continues, and no token was given twice. */
  predicate Continues(pages: seq<Page>) {
    && (forall k :: 0 <= k < |pages| ==> pages[k].next.Some? && pages[k].next.value != 0)
    && (forall i, j :: 0 <= i < j < |pages| ==> pages[i].next != pages[j].next)
  }

  /** A walk over terminated instances up to a page that ends it: the last page of the inventory, or
      one with an instance that may be alive. */
  predicate EndedWalk(inventory: Inventory, pages: seq<Page>) {
    && 0 < |pages| <= MAX_PAGES && Walked(inventory, pages)
    && Continues(pages[..|pages| - 1]) && AllPagesGone(pages[..|pages| - 1])
    && (!AllGone(pages[|pages| - 1]) || pages[|pages| - 1].next.None?)
  }

  /** A complete inventory in which every instance is terminated. */
  ghost predicate Clear(inventory: Inventory) {
    exists pages: seq<Page> :: EndedWalk(inventory, pages) && AllGone(pages[|pages| - 1])
  }

  /** A page reached over terminated instances names one that is not. */
  ghost predicate Alive(inventory: Inventory) {
    exists pages: seq<Page> :: EndedWalk(inventory, pages) && !AllGone(pages[|pages| - 1])
  }

  /** Two walks agree as far as both go. */
  lemma {:induction false} WalksAgree(inventory: Inventory, a: seq<Page>, b: seq<Page>, k: nat)
    requires Walked(inventory, a) && Walked(inventory, b) && k <= |a| && k <= |b|
    ensures a[..k] == b[..k]
  {
    if k > 0 {
      WalksAgree(inventory, a, b, k - 1);
      assert AnsweredAt(inventory, a, k - 1) && AnsweredAt(inventory, b, k - 1);
      assert k > 1 ==> a[k - 2] == a[..k - 1][k - 2] == b[..k - 1][k - 2] == b[k - 2];
      assert a[..k] == a[..k - 1] + [a[k - 1]] && b[..k] == b[..k - 1] + [b[k - 1]];
    }
  }

  /** Where the pages so far continue, an ended walk goes on with the next answer. */
  lemma EndIsAhead(inventory: Inventory, pages: seq<Page>, ended: seq<Page>)
    requires Walked(inventory, pages) && Continues(pages) && AllPagesGone(pages) && EndedWalk(inventory, ended)
    ensures |ended| > |pages| && ended[..|pages|] == pages
    ensures inventory(|pages|, TokenAt(pages, |pages|)) == Some(ended[|pages|])
  {
    hide Continues, AllGone;
    if |ended| <= |pages| {
      WalksAgree(inventory, pages, ended, |ended|);
      assert pages[|ended| - 1] == ended[|ended| - 1];
      assert AllGone(pages[|ended| - 1]);
      ContinuesAt(pages, |ended| - 1);
    } else {
      WalksAgree(inventory, pages, ended, |pages|);
      assert AnsweredAt(inventory, ended, |pages|);
      assert pages == ended[..|pages|];
      assert |pages| > 0 ==> ended[|pages| - 1] == pages[|pages| - 1];
    }
  }

  lemma ContinuesAt(pages: seq<Page>, k: nat)
    requires Continues(pages) && k < |pages|
    ensures pages[k].next.Some?
  {
  }

  /** With an answer that continues the walk no further, no other end can lie ahead. */
  lemma EndIsHere(inventory: Inventory, pages: seq<Page>, page: Page, ended: seq<Page>)
    requires Walked(inventory, pages) && Continues(pages) && AllPagesGone(pages) && EndedWalk(inventory, ended)
    requires inventory(|pages|, TokenAt(pages, |pages|)) == Some(page)
    requires Continues(pages + [page]) && AllGone(page) ==> page.next.None?
    ensures ended == pages + [page]
  {
    hide Continues, AllGone;
    EndIsAhead(inventory, pages, ended);
    assert ended[..|pages| + 1] == ended[..|pages|] + [ended[|pages|]];
    if |ended| > |pages| + 1 {
      GoesOn(inventory, ended, |pages|);
    }
  }

  lemma GoesOn(inventory: Inventory, ended: seq<Page>, k: nat)
    requires EndedWalk(inventory, ended) && k < |ended| - 1
    ensures Continues(ended[..k + 1]) && AllGone(ended[k]) && ended[k].next.Some?
  {
    var init := ended[..|ended| - 1];
    assert AllGone(init[k]) && init[k].next.Some?;
    assert forall i :: 0 <= i < k + 1 ==> init[i] == ended[..k + 1][i];
  }

  function TokensOf(pages: seq<Page>): set<nat> {
    if pages == [] then {}
    else
      var last := pages[|pages| - 1];
      TokensOf(pages[..|pages| - 1]) + if last.next.Some? then {last.next.value} else {}
  }

  lemma {:induction false} TokensAre(pages: seq<Page>, t: nat)
    ensures t in TokensOf(pages) <==> exists k :: 0 <= k < |pages| && pages[k].next == Some(t)
  {
    if pages != [] {
      TokensAre(pages[..|pages| - 1], t);
    }
  }

  lemma WalkExtends(inventory: Inventory, pages: seq<Page>, page: Page)
    requires Walked(inventory, pages) && inventory(|pages|, TokenAt(pages, |pages|)) == Some(page)
    ensures Walked(inventory, pages + [page])
    ensures AllPagesGone(pages) && AllGone(page) ==> AllPagesGone(pages + [page])
  {
    hide AllGone, AnsweredAt;
    var longer := pages + [page];
    forall k | 0 <= k < |longer| ensures AnsweredAt(inventory, longer, k) {
      if k < |pages| {
        StillAnswered(inventory, pages, page, k);
      } else {
        LastAnswered(inventory, pages, page);
      }
    }
  }

  lemma ContinuesFurther(pages: seq<Page>, page: Page)
    requires Continues(pages) && page.next.Some? && page.next.value != 0 && page.next.value !in TokensOf(pages)
    ensures Continues(pages + [page]) && TokensOf(pages + [page]) == TokensOf(pages) + {page.next.value}
  {
    assert (pages + [page])[..|pages|] == pages;
    TokensAre(pages, page.next.value);
  }

  lemma EmptyWalk(inventory: Inventory)
    ensures Walked(inventory, []) && Continues([]) && AllPagesGone([]) && TokensOf([]) == {}
  {
  }

  method PageIsGone(page: Page) returns (gone: bool)
    ensures gone <==> AllGone(page)
  {
    for k := 0 to |page.instances|
      invariant forall i :: 0 <= i < k ==> Gone(page.instances[i])
    {
      var instance := page.instances[k];
      if !instance.named || !instance.terminated || !instance.tagged {
        return false;
      }
    }
    gone := true;
  }

  /** `no_active_instances`: after the fence the answer is that nothing is active exactly when the
      inventory is complete and every instance in it terminated, and that something may be active
      exactly when a page shows it; a truncated, cyclic or failed inventory gives neither. */
  method NoActiveInstances(inventory: Inventory, launchUntil: nat, now: nat, ambiguity: Option<nat>)
    returns (r: Answer)
    ensures var fence := Fence(launchUntil, ambiguity);
            var passed := fence.Some? && now > fence.value;
            && (r == NoneActive <==> passed && Clear(inventory))
            && (r == MaybeActive <==> !passed || Alive(inventory))
  {
    hide Walked, Continues, AllPagesGone, AllGone, TokensOf, EndedWalk;
    EmptyWalk(inventory);
    ghost var pages: seq<Page> := [];
    if ambiguity.None? || ambiguity.value == 0 {
      return MaybeActive;
    }
    if launchUntil + LAUNCH_LIFETIME > U64_MAX || launchUntil + LAUNCH_LIFETIME + ambiguity.value > U64_MAX {
      return MaybeActive;
    }
    var fence := launchUntil + LAUNCH_LIFETIME + ambiguity.value;
    if now <= fence {
      return MaybeActive;
    }
    var token: Option<nat> := None;
    var seen: set<nat> := {};
    for call := 0 to MAX_PAGES
      invariant |pages| == call && token == TokenAt(pages, call) && seen == TokensOf(pages)
      invariant Walked(inventory, pages) && AllPagesGone(pages) && Continues(pages)
    {
      var output := inventory(call, token);
      if output.None? {
        NoEndAhead(inventory, pages);
        return Unavailable;
      }
      var page := output.value;
      ghost var before := pages;
      WalkExtends(inventory, pages, page);
      pages := pages + [page];
      assert pages[..call] == before && TokenAt(pages, call) == token;
      var gone := PageIsGone(page);
      if !gone || page.next.None? {
        EndReached(inventory, before, page);
        return if gone then NoneActive else MaybeActive;
      }
      if page.next.value == 0 || page.next.value in seen {
        WalkBreaks(inventory, before, page);
        return Unavailable;
      }
      ContinuesFurther(before, page);
      seen := seen + {page.next.value};
      token := page.next;
    }
    NoEndAhead(inventory, pages);
    r := Unavailable;
  }

  lemma NoEndAhead(inventory: Inventory, pages: seq<Page>)
    requires Walked(inventory, pages) && Continues(pages) && AllPagesGone(pages)
    requires |pages| >= MAX_PAGES || inventory(|pages|, TokenAt(pages, |pages|)).None?
    ensures !Clear(inventory) && !Alive(inventory)
  {
    hide Walked, Continues, AllPagesGone, AllGone;
    forall ended | EndedWalk(inventory, ended) ensures false {
      EndIsAhead(inventory, pages, ended);
    }
  }

  lemma WalkBreaks(inventory: Inventory, pages: seq<Page>, page: Page)
    requires Walked(inventory, pages) && Continues(pages) && AllPagesGone(pages) && AllGone(page)
    requires inventory(|pages|, TokenAt(pages, |pages|)) == Some(page)
    requires page.next.Some? && (page.next.value == 0 || page.next.value in TokensOf(pages))
    ensures !Clear(inventory) && !Alive(inventory)
  {
    TokensAre(pages, page.next.value);
    var longer := pages + [page];
    assert longer[|pages|] == page;
    if page.next.value != 0 {
      var k :| 0 <= k < |pages| && pages[k].next == page.next;
      assert longer[k] == pages[k];
    }
    assert !Continues(longer);
    hide Walked, Continues, AllPagesGone, AllGone, TokensOf;
    forall ended | EndedWalk(inventory, ended) ensures false {
      EndIsHere(inventory, pages, page, ended);
    }
  }

  lemma EndReached(inventory: Inventory, pages: seq<Page>, page: Page)
    requires Walked(inventory, pages) && Continues(pages) && AllPagesGone(pages) && |pages| < MAX_PAGES
    requires inventory(|pages|, TokenAt(pages, |pages|)) == Some(page)
    requires !AllGone(page) || page.next.None?
    ensures Clear(inventory) <==> AllGone(page)
    ensures Alive(inventory) <==> !AllGone(page)
  {
    hide Walked, Continues, AllPagesGone, AllGone;
    var walk := pages + [page];
    WalkExtends(inventory, pages, page);
    assert walk[..|walk| - 1] == pages;
    assert EndedWalk(inventory, walk);
    forall ended | EndedWalk(inventory, ended) ensures ended == walk {
      EndIsHere(inventory, pages, page, ended);
    }
  }
}

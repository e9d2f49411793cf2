/** What the endpoint table of the catalogue keeps of the posts that are merged in. */
module CatalogRows {
  import opened Text
  import opened Catalog

  /** The posts about one address, in order. */
  function About(posts: seq<Post>, at: Address): seq<Post> {
    if posts == [] then []
    else About(posts[..|posts| - 1], at) + (if posts[|posts| - 1].at == at then [posts[|posts| - 1]] else [])
  }

  predicate LastAt(values: seq<Option<string>>, i: nat)
    requires i < |values|
  {
    values[i].Some? && forall j :: i < j < |values| ==> values[j].None?
  }

  /** The last value said, or the one known before. */
  function LastSaid(values: seq<Option<string>>, known: Option<string>): (r: Option<string>)
    ensures (forall i :: 0 <= i < |values| ==> values[i].None?) ==> r == known
    ensures forall i :: 0 <= i < |values| && LastAt(values, i) ==> r == values[i]
  {
    if values == [] then known
    else
      var init := values[..|values| - 1];
      assert forall i :: 0 <= i < |init| ==> values[i] == init[i];
      assert forall i :: 0 <= i < |init| && LastAt(values, i) ==> LastAt(init, i);
      OrElse(values[|values| - 1], LastSaid(init, known))
  }

  function Tiers(posts: seq<Post>): seq<Option<string>> {
    seq(|posts|, i requires 0 <= i < |posts| => posts[i].tier)
  }

  function Dates(posts: seq<Post>): seq<Option<string>> {
    seq(|posts|, i requires 0 <= i < |posts| => posts[i].postDate)
  }

  /** The highest post id, a missing one counting as zero. */
  function TopId(posts: seq<Post>): (r: int)
    requires posts != []
    ensures forall i :: 0 <= i < |posts| ==> IntOr0(posts[i].postId) <= r
    ensures exists i :: 0 <= i < |posts| && IntOr0(posts[i].postId) == r
  {
    if |posts| == 1 then IntOr0(posts[0].postId)
    else
      var init := posts[..|posts| - 1];
      var r := TopId(init);
      assert forall i :: 0 <= i < |init| ==> init[i] == posts[i];
      Max(r, IntOr0(posts[|posts| - 1].postId))
  }

  /** A single post leaves its id on a new row as it is, everything else is a maximum. */
  function PostIdAfter(prior: Option<Endpoint>, posts: seq<Post>): Option<int> {
    if posts == [] then if prior.Some? then prior.value.postId else None
    else if prior.Some? then Some(Max(IntOr0(prior.value.postId), TopId(posts)))
    else if |posts| == 1 then posts[0].postId
    else Some(TopId(posts))
  }

  function NewAddresses(s: State, posts: seq<Post>): set<Address> {
    set p | p in posts && p.at !in s.endpoints :: p.at
  }

  /** The posts before the first one about the address. */
  function Before(posts: seq<Post>, at: Address): seq<Post> {
    if posts == [] || posts[0].at == at then [] else [posts[0]] + Before(posts[1..], at)
  }

  /** The id of a row: its own, or the next free one after those of the new addresses met before it. */
  function IdAfter(s: State, posts: seq<Post>, at: Address): nat {
    if at in s.endpoints then s.endpoints[at].id else s.nextId + |NewAddresses(s, Before(posts, at))|
  }

  function Prior(s: State, at: Address): Option<Endpoint> {
    if at in s.endpoints then Some(s.endpoints[at]) else None
  }

  predicate HasRow(s: State, posts: seq<Post>, at: Address) {
    at in s.endpoints || About(posts, at) != []
  }

  /** What posts about one address come to. */
  datatype Said = Said(id: nat, provider: string, tier: Option<string>, postId: Option<int>, postDate: Option<string>)

  function SaidAbout(s: State, posts: seq<Post>, at: Address): Said
    requires HasRow(s, posts, at)
  {
    var prior, mine := Prior(s, at), About(posts, at);
    Said(IdAfter(s, posts, at),
         if mine == [] then prior.value.provider else mine[|mine| - 1].provider,
         LastSaid(Tiers(mine), if prior.Some? then prior.value.tier else None),
         PostIdAfter(prior, mine),
         LastSaid(Dates(mine), if prior.Some? then prior.value.postDate else None))
  }

  // ---------------------------------------------------------------- one post more

  lemma {:induction false} BeforeOneMore(posts: seq<Post>, at: Address, last: Post)
    ensures About(posts, at) == [] ==> Before(posts, at) == posts
    ensures About(posts, at) != [] ==> Before(posts + [last], at) == Before(posts, at)
    ensures About(posts, at) == [] && last.at == at ==> Before(posts + [last], at) == posts
    decreases |posts|
  {
    var all := posts + [last];
    assert posts == [] ==> About(posts, at) == [];
    hide About;
    if posts == [] {
      assert all[0] == last;
    } else {
      assert all[1..] == posts[1..] + [last] && all[0] == posts[0];
      AboutFirst(posts, at);
      BeforeOneMore(posts[1..], at, last);
    }
  }

  lemma {:induction false} AboutFirst(posts: seq<Post>, at: Address)
    requires posts != []
    ensures About(posts, at) == (if posts[0].at == at then [posts[0]] else []) + About(posts[1..], at)
    decreases |posts|
  {
    if |posts| == 1 {
      assert posts[..0] == [] && posts[1..] == [] && About([], at) == [];
    } else {
      var init, tail := posts[..|posts| - 1], posts[1..];
      AboutFirst(init, at);
      assert init[1..] == tail[..|tail| - 1] && tail[|tail| - 1] == posts[|posts| - 1];
    }
  }

  lemma NewOneMore(s: State, posts: seq<Post>, last: Post)
    ensures NewAddresses(s, posts + [last])
            == NewAddresses(s, posts) + if last.at in s.endpoints then {} else {last.at}
  {
    var all := posts + [last];
    assert forall p :: p in all <==> p in posts || p == last;
    if last.at !in s.endpoints { assert last in all; }
    forall at | at in NewAddresses(s, posts) ensures at in NewAddresses(s, all) {
      var p :| p in posts && p.at == at;
      assert p in all;
    }
  }

  lemma NewAreNew(s: State, posts: seq<Post>)
    ensures forall at :: at in NewAddresses(s, posts) ==> at !in s.endpoints
  {}

  lemma AddedOnce(addresses: set<Address>, at: Address)
    ensures |addresses + {at}| == if at in addresses then |addresses| else |addresses| + 1
  {
    if at in addresses { assert addresses + {at} == addresses; }
  }

  /** The next free id goes up by one for every new address. */
  lemma {:induction false} IdsGrow(s: State, posts: seq<Post>)
    ensures Ingested(s, posts).endpoints.Keys == s.endpoints.Keys + NewAddresses(s, posts)
    ensures Ingested(s, posts).nextId == s.nextId + |NewAddresses(s, posts)|
    decreases |posts|
  {
    if posts == [] {
      assert NewAddresses(s, posts) == {};
    } else {
      hide NewAddresses, Upserted;
      var init, last := posts[..|posts| - 1], posts[|posts| - 1];
      assert posts == init + [last] && Ingested(s, posts) == Upserted(Ingested(s, init), last);
      hide Ingested;
      IdsGrow(s, init);
      UpsertGrows(Ingested(s, init), last);
      NewOneMore(s, init, last);
      NewAreNew(s, init);
      GrowOneMore(s.endpoints.Keys, NewAddresses(s, init), last.at);
    }
  }

  lemma GrowOneMore(known: set<Address>, added: set<Address>, at: Address)
    requires added !! known
    ensures var more := added + if at in known then {} else {at};
            && known + added + {at} == known + more
            && |more| == if at in known + added then |added| else |added| + 1
  {
    var more := added + if at in known then {} else {at};
    if at in known { assert more == added; }
    AddedOnce(added, at);
  }

  lemma UpsertGrows(s: State, post: Post)
    ensures Upserted(s, post).endpoints.Keys == s.endpoints.Keys + {post.at}
    ensures Upserted(s, post).nextId == if post.at in s.endpoints then s.nextId else s.nextId + 1
  {
    hide MarkAll, Facts;
  }

  lemma {:induction false} LastOneMore(mine: seq<Post>, last: Post, known: Option<string>)
    ensures LastSaid(Tiers(mine + [last]), known) == OrElse(last.tier, LastSaid(Tiers(mine), known))
    ensures LastSaid(Dates(mine + [last]), known) == OrElse(last.postDate, LastSaid(Dates(mine), known))
  {
    assert Tiers(mine + [last]) == Tiers(mine) + [last.tier];
    assert Dates(mine + [last]) == Dates(mine) + [last.postDate];
    assert (Tiers(mine) + [last.tier])[..|mine|] == Tiers(mine);
    assert (Dates(mine) + [last.postDate])[..|mine|] == Dates(mine);
  }

  lemma {:induction false} PostIdOneMore(prior: Option<Endpoint>, mine: seq<Post>, last: Post)
    ensures PostIdAfter(prior, mine + [last])
            == if prior.None? && mine == [] then last.postId
               else Some(Max(IntOr0(PostIdAfter(prior, mine)), IntOr0(last.postId)))
  {
    var all := mine + [last];
    assert all[..|mine|] == mine && all[|mine|] == last;
    if mine == [] { assert all == [last]; }
  }

  ghost predicate RowIs(endpoints: map<Address, Endpoint>, prior: Option<Endpoint>, at: Address, said: Said) {
    && at in endpoints
    && endpoints[at] == match prior
                        case None => Endpoint(said.id, said.provider, said.tier, said.postId, said.postDate,
                                              false, false, 0, None)
                        case Some(e) => e.(provider := said.provider, tier := said.tier, postId := said.postId,
                                           postDate := said.postDate)
  }

  lemma {:induction false} SaidOneMore(s: State, init: seq<Post>, last: Post)
    ensures var at, posts := last.at, init + [last];
            && About(posts, at) == About(init, at) + [last] && HasRow(s, posts, at)
            && SaidAbout(s, posts, at).provider == last.provider
            && SaidAbout(s, posts, at).postId == PostIdAfter(Prior(s, at), About(init, at) + [last])
            && (HasRow(s, init, at) ==>
                  var said := SaidAbout(s, init, at);
                  && SaidAbout(s, posts, at).id == said.id
                  && SaidAbout(s, posts, at).tier == OrElse(last.tier, said.tier)
                  && SaidAbout(s, posts, at).postDate == OrElse(last.postDate, said.postDate))
            && (!HasRow(s, init, at) ==>
                  && SaidAbout(s, posts, at).id == s.nextId + |NewAddresses(s, init)|
                  && SaidAbout(s, posts, at).tier == last.tier && SaidAbout(s, posts, at).postDate == last.postDate)
  {
    var at, posts := last.at, init + [last];
    assert posts[..|init|] == init && posts[|init|] == last;
    assert About(posts, at) == About(init, at) + [last];
    BeforeOneMore(init, at, last);
    var prior := Prior(s, at);
    hide About, LastSaid, TopId, Tiers, Dates, PostIdAfter, NewAddresses, Before;
    LastOneMore(About(init, at), last, if prior.Some? then prior.value.tier else None);
    LastOneMore(About(init, at), last, if prior.Some? then prior.value.postDate else None);
    if !HasRow(s, init, at) { NothingSaid(); }
  }

  lemma {:induction false} NothingSaid()
    ensures LastSaid(Tiers([]), None).None? && LastSaid(Dates([]), None).None?
  {}

  lemma {:induction false} ElsewhereSaysTheSame(s: State, init: seq<Post>, last: Post, at: Address)
    requires last.at != at
    ensures HasRow(s, init + [last], at) == HasRow(s, init, at)
    ensures HasRow(s, init, at) ==> SaidAbout(s, init + [last], at) == SaidAbout(s, init, at)
  {
    var posts := init + [last];
    assert posts[..|init|] == init && posts[|init|] == last;
    assert About(posts, at) == About(init, at);
    BeforeOneMore(init, at, last);
    hide About, Before, NewAddresses, LastSaid, PostIdAfter, Tiers, Dates, Prior;
    assert HasRow(s, init, at) ==> IdAfter(s, posts, at) == IdAfter(s, init, at);
    hide IdAfter;
  }

  // ---------------------------------------------------------------- the law

  /**
   * The row of an address after any posts: the provider of the last post about it, the last tier and
   * the last date said or those known before, the highest post id, and an id that counts the new
   * addresses before it. Everything else on the row is what it was.
   */
  lemma {:induction false} EndpointAfter(s: State, posts: seq<Post>, at: Address)
    ensures at in Ingested(s, posts).endpoints <==> HasRow(s, posts, at)
    ensures HasRow(s, posts, at) ==> RowIs(Ingested(s, posts).endpoints, Prior(s, at), at, SaidAbout(s, posts, at))
    decreases |posts|
  {
    if posts == [] {
      NoPosts(s, at);
    } else {
      var init, last := posts[..|posts| - 1], posts[|posts| - 1];
      assert posts == init + [last] && Ingested(s, posts) == Upserted(Ingested(s, init), last);
      EndpointAfter(s, init, at);
      hide Ingested, SaidAbout, HasRow;
      if last.at == at {
        RowOneMore(s, init, last);
      } else {
        ElsewhereSaysTheSame(s, init, last, at);
        hide MarkAll, Facts;
      }
    }
  }

  lemma {:induction false} NoPosts(s: State, at: Address)
    ensures Ingested(s, []) == s && (HasRow(s, [], at) <==> at in s.endpoints)
    ensures at in s.endpoints ==> RowIs(s.endpoints, Prior(s, at), at, SaidAbout(s, [], at))
  {
    assert About([], at) == [] && Tiers([]) == [] && Dates([]) == [];
  }

  lemma {:induction false} RowOneMore(s: State, init: seq<Post>, last: Post)
    requires var s1 := Ingested(s, init);
             && (last.at in s1.endpoints <==> HasRow(s, init, last.at))
             && (HasRow(s, init, last.at) ==>
                 RowIs(s1.endpoints, Prior(s, last.at), last.at, SaidAbout(s, init, last.at)))
    ensures HasRow(s, init + [last], last.at)
    ensures RowIs(Upserted(Ingested(s, init), last).endpoints, Prior(s, last.at), last.at,
                  SaidAbout(s, init + [last], last.at))
  {
    var s1, at, prior := Ingested(s, init), last.at, Prior(s, last.at);
    SaidOneMore(s, init, last);
    IdsGrow(s, init);
    PostIdOneMore(prior, About(init, at), last);
    assert HasRow(s, init, at) ==> SaidAbout(s, init, at).postId == PostIdAfter(prior, About(init, at));
    hide Ingested, SaidAbout, PostIdAfter, NewAddresses, About, MarkAll, Facts;
  }

  /** Two lists of posts come to the same for this address. */
  predicate SaySame(s: State, first: seq<Post>, second: seq<Post>, at: Address) {
    && (HasRow(s, first, at) <==> HasRow(s, second, at))
    && (HasRow(s, first, at) ==> SaidAbout(s, first, at) == SaidAbout(s, second, at))
  }

  lemma {:induction false} SameRowExactly(s: State, first: seq<Post>, second: seq<Post>, at: Address)
    ensures var one, two := Ingested(s, first).endpoints, Ingested(s, second).endpoints;
            (at in one <==> at in two) && (at in one ==> one[at] == two[at]) <==> SaySame(s, first, second, at)
  {
    EndpointAfter(s, first, at);
    EndpointAfter(s, second, at);
    KnownId(s, first, at);
    KnownId(s, second, at);
    hide Ingested, SaidAbout, HasRow;
  }

  /**
   * Two lists of posts leave the same endpoint table if and only if they come to the same for every
   * address: nothing else in them, and nothing else about their order, shows in it.
   */
  lemma {:induction false} SameTableExactly(s: State, first: seq<Post>, second: seq<Post>)
    ensures Ingested(s, first).endpoints == Ingested(s, second).endpoints
            <==> forall at :: SaySame(s, first, second, at)
  {
    var one, two := Ingested(s, first).endpoints, Ingested(s, second).endpoints;
    hide Ingested, SaySame;
    forall at
      ensures (at in one <==> at in two) && (at in one ==> one[at] == two[at]) <==> SaySame(s, first, second, at)
    {
      SameRowExactly(s, first, second, at);
    }
    if forall at :: SaySame(s, first, second, at) {
      assert forall at :: at in one ==> SaySame(s, first, second, at) && at in two && one[at] == two[at];
      assert forall at :: at in two ==> SaySame(s, first, second, at) && at in one;
      assert one == two;
    }
  }

  lemma KnownId(s: State, posts: seq<Post>, at: Address)
    ensures HasRow(s, posts, at) && Prior(s, at).Some? ==> SaidAbout(s, posts, at).id == s.endpoints[at].id
  {}
}

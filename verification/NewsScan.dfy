/** The news de-duplicator of agent/brain.go: a set and its insertion order, halved in place
    when it grows past a thousand. */
module NewsScan {
  import opened Seqs
  import opened Text

  datatype Article = Article(title: string, source: string, url: string, body: string, publishedOn: int)

  datatype Sentiment = Neutral | Bullish | Bearish

  datatype Notice = Notice(title: string, source: string, sentiment: Sentiment)

  const BULLISH := ["surge", "rally", "bullish", "breakout", "ath", "pump", "adoption"]
  const BEARISH := ["crash", "dump", "bearish", "sell-off", "plunge", "hack", "ban", "fraud"]
  const MAX_AGE_SECONDS := 600
  const SEEN_MAX: nat := 1000

  function Mentions(words: seq<string>, text: string): nat {
    if words == [] then 0
    else Mentions(words[..|words| - 1], text) + if ContainsText(text, words[|words| - 1]) then 1 else 0
  }

  /** The counting loop over one word list. */
  method CountMentions(words: seq<string>, text: string) returns (n: nat)
    ensures n == Mentions(words, text)
  {
    n := 0;
    for i := 0 to |words|
      invariant n == Mentions(words[..i], text)
    {
      assert words[..i + 1][..i] == words[..i];
      if ContainsText(text, words[i]) {
        n := n + 1;
      }
    }
    assert words[..|words|] == words;
  }

  /** What a newly seen article makes the agent say, if anything. */
  function NoticeFor(a: Article, now: int): Option<Notice> {
    var text := Lower(a.title + " " + a.body);
    var up, down := Mentions(BULLISH, text), Mentions(BEARISH, text);
    if now - a.publishedOn > MAX_AGE_SECONDS || (up == 0 && down == 0) then None
    else Some(Notice(a.title, a.source, if up > down then Bullish else if down > up then Bearish else Neutral))
  }

  /** The articles of a batch that are new: not in `seen`, and the first of their URL. */
  function NewArticles(batch: seq<Article>, seen: set<string>): seq<Article> {
    if batch == [] then []
    else
      var rest := batch[..|batch| - 1];
      var a := batch[|batch| - 1];
      NewArticles(rest, seen) + if a.url in seen || exists i :: 0 <= i < |rest| && rest[i].url == a.url then [] else [a]
  }

  function Urls(batch: seq<Article>): (r: seq<string>)
    ensures |r| == |batch|
  {
    seq(|batch|, i requires 0 <= i < |batch| => batch[i].url)
  }

  function Notices(batch: seq<Article>, now: int): seq<Notice> {
    if batch == [] then []
    else
      var n := NoticeFor(batch[|batch| - 1], now);
      Notices(batch[..|batch| - 1], now) + if n.Some? then [n.value] else []
  }

  /** How far a URL must have receded before it is forgotten. */
  const RECEDE: nat := 501

  /** `inserted` is everything ever taken in, in order, of which `order` is the remembered end:
      an entry that is no longer remembered was followed by 501 pairwise distinct newer ones. */
  ghost predicate Remembers(order: seq<string>, inserted: seq<string>) {
    && IsSuffix(order, inserted)
    && NoDups(order)
    && forall j :: 0 <= j < |inserted| - |order| ==> Receded(inserted, j)
  }

  predicate Receded(inserted: seq<string>, j: nat) {
    j + RECEDE < |inserted| && NoDups(inserted[j..j + RECEDE + 1])
  }

  lemma RecededLater(inserted: seq<string>, u: string, j: nat)
    requires Receded(inserted, j)
    ensures Receded(inserted + [u], j)
  {
    assert (inserted + [u])[j..j + RECEDE + 1] == inserted[j..j + RECEDE + 1];
  }

  /** Taking in a URL that is not remembered. */
  lemma InsertRemembers(order: seq<string>, inserted: seq<string>, u: string)
    requires Remembers(order, inserted) && u !in order
    ensures Remembers(order + [u], inserted + [u])
  {
    forall j | 0 <= j < |inserted| - |order|
      ensures Receded(inserted + [u], j)
    {
      RecededLater(inserted, u, j);
    }
    assert NoDups(order + [u]) by {
      assert forall i :: 0 <= i < |order| ==> order[i] in order;
    }
  }

  /** Forgetting the older half of more than a thousand entries. */
  lemma EvictRemembers(order: seq<string>, inserted: seq<string>)
    requires Remembers(order, inserted) && |order| > SEEN_MAX
    ensures Remembers(order[|order| / 2..], inserted)
  {
    var half := |order| / 2;
    var base := |inserted| - |order|;
    assert |order| - half >= RECEDE;
    forall j | 0 <= j < base + half
      ensures Receded(inserted, j)
    {
      if j >= base {
        assert inserted[j..j + RECEDE + 1] == order[j - base..j - base + RECEDE + 1];
      }
    }
    assert order[half..] == inserted[base + half..];
  }

  /** A URL is taken in again only after 501 pairwise distinct newer URLs, itself not among them. */
  lemma SecondTimeOnlyAfterMany(order: seq<string>, inserted: seq<string>, u: string, j: nat)
    requires Remembers(order, inserted) && u !in order && j < |inserted| && inserted[j] == u
    ensures j + RECEDE < |inserted|
    ensures NoDups(inserted[j + 1..j + 1 + RECEDE]) && u !in inserted[j + 1..j + 1 + RECEDE]
  {
    var base := |inserted| - |order|;
    if j >= base {
      StillRemembered(order, inserted, j);
    }
    assert Receded(inserted, j);
    var w := inserted[j..j + RECEDE + 1];
    assert inserted[j + 1..j + 1 + RECEDE] == w[1..];
    assert w[0] == u;
  }

  lemma StillRemembered(order: seq<string>, inserted: seq<string>, j: nat)
    requires IsSuffix(order, inserted) && |inserted| - |order| <= j < |inserted|
    ensures inserted[j] in order
  {
    assert order[j - (|inserted| - |order|)] == inserted[j];
  }

  lemma NewArticlesStep(batch: seq<Article>, i: nat, seen: set<string>, now: set<string>)
    requires i < |batch|
    requires forall u :: u in now <==> u in seen || exists k :: 0 <= k < i && batch[k].url == u
    ensures NewArticles(batch[..i + 1], seen) ==
            if batch[i].url in now then NewArticles(batch[..i], seen) else NewArticles(batch[..i], seen) + [batch[i]]
    ensures forall u :: u in now + {batch[i].url} <==> u in seen || exists k :: 0 <= k < i + 1 && batch[k].url == u
  {
    var next := batch[..i + 1];
    assert next[..i] == batch[..i];
    assert forall k :: 0 <= k < i ==> batch[..i][k] == batch[k];
  }

  lemma TakenStep(taken: seq<Article>, d: Article, now: int)
    ensures Urls(taken + [d]) == Urls(taken) + [d.url]
    ensures Notices(taken + [d], now) == Notices(taken, now) + if NoticeFor(d, now).Some?
              then [NoticeFor(d, now).value] else []
  {
    hide NoticeFor;
    assert (taken + [d])[..|taken|] == taken;
  }

  lemma NothingTaken(batch: seq<Article>, seen: set<string>, now: int)
    ensures NewArticles(batch[..0], seen) == [] && Urls([]) == [] && Notices([], now) == []
  {
  }

  lemma StaleIsSilent(d: Article, now: int)
    requires now - d.publishedOn > MAX_AGE_SECONDS
    ensures NoticeFor(d, now).None?
  {
    hide Mentions, Lower;
  }

  lemma DistinctHead(s: seq<string>)
    requires s != []
    ensures forall u :: u in s <==> u == s[0] || u in s[1..]
  {
    assert s == [s[0]] + s[1..];
  }

  lemma {:induction false} SameSize(s: set<string>, order: seq<string>)
    requires NoDups(order) && forall u :: u in s <==> u in order
    ensures |s| == |order|
  {
    if order == [] {
      assert s == {};
    } else {
      var front, u := order[..|order| - 1], order[|order| - 1];
      assert order == front + [u];
      assert u !in front;
      SameSize(s - {u}, front);
    }
  }

  lemma {:induction false} MentionsPositive(words: seq<string>, text: string)
    ensures Mentions(words, text) > 0 <==> exists i :: 0 <= i < |words| && ContainsText(text, words[i])
  {
    hide ContainsText;
    if words != [] {
      MentionsPositive(words[..|words| - 1], text);
      assert words == words[..|words| - 1] + [words[|words| - 1]];
    }
  }

  /** Some count is positive exactly when some word of either list occurs. */
  lemma SomeMention(up: seq<string>, down: seq<string>, text: string)
    ensures Mentions(up, text) == 0 && Mentions(down, text) == 0 <==>
            !exists i :: 0 <= i < |up + down| && ContainsText(text, (up + down)[i])
  {
    hide ContainsText, Mentions;
    MentionsPositive(up, text);
    MentionsPositive(down, text);
    var all := up + down;
    assert forall i :: 0 <= i < |up| ==> all[i] == up[i];
    assert forall i :: 0 <= i < |down| ==> all[|up| + i] == down[i];
  }

  function One(b: bool): nat {
    if b then 1 else 0
  }

  /** How many of the seven rising and of the eight falling words the text contains. */
  lemma Counted(text: string)
    ensures Mentions(BULLISH, text) ==
            One(ContainsText(text, "surge")) + One(ContainsText(text, "rally")) +
            One(ContainsText(text, "bullish")) + One(ContainsText(text, "breakout")) +
            One(ContainsText(text, "ath")) + One(ContainsText(text, "pump")) + One(ContainsText(text, "adoption"))
    ensures Mentions(BEARISH, text) ==
            One(ContainsText(text, "crash")) + One(ContainsText(text, "dump")) +
            One(ContainsText(text, "bearish")) + One(ContainsText(text, "sell-off")) +
            One(ContainsText(text, "plunge")) + One(ContainsText(text, "hack")) + One(ContainsText(text, "ban")) +
            One(ContainsText(text, "fraud"))
  {
    hide ContainsText, Mentions;
    MentionsConcat(text, ["surge", "rally", "bullish"], ["breakout", "ath", "pump", "adoption"]);
    MentionsConcat(text, ["crash", "dump", "bearish", "sell-off"], ["plunge", "hack", "ban", "fraud"]);
    Three(text, "surge", "rally", "bullish");
    Four(text, "breakout", "ath", "pump", "adoption");
    Four(text, "crash", "dump", "bearish", "sell-off");
    Four(text, "plunge", "hack", "ban", "fraud");
    assert BULLISH == ["surge", "rally", "bullish"] + ["breakout", "ath", "pump", "adoption"];
    assert BEARISH == ["crash", "dump", "bearish", "sell-off"] + ["plunge", "hack", "ban", "fraud"];
  }

  lemma {:induction false} MentionsConcat(text: string, a: seq<string>, b: seq<string>)
    ensures Mentions(a + b, text) == Mentions(a, text) + Mentions(b, text)
    decreases |b|
  {
    hide ContainsText;
    if b == [] {
      assert a + b == a;
    } else {
      assert (a + b)[..|a + b| - 1] == a + b[..|b| - 1];
      MentionsConcat(text, a, b[..|b| - 1]);
    }
  }

  lemma Single(text: string, a: string)
    ensures Mentions([a], text) == One(ContainsText(text, a))
  {
    assert [a][..0] == [];
  }

  lemma Three(text: string, a: string, b: string, c: string)
    ensures Mentions([a, b, c], text) ==
            One(ContainsText(text, a)) + One(ContainsText(text, b)) + One(ContainsText(text, c))
  {
    hide ContainsText, Mentions;
    MentionsConcat(text, [a, b], [c]);
    MentionsConcat(text, [a], [b]);
    Single(text, a);
    Single(text, b);
    Single(text, c);
    assert [a, b] + [c] == [a, b, c] && [a] + [b] == [a, b];
  }

  lemma Four(text: string, a: string, b: string, c: string, d: string)
    ensures Mentions([a, b, c, d], text) == One(ContainsText(text, a)) + One(ContainsText(text, b))
                                            + One(ContainsText(text, c)) + One(ContainsText(text, d))
  {
    hide ContainsText, Mentions;
    MentionsConcat(text, [a, b, c], [d]);
    Three(text, a, b, c);
    Single(text, d);
    assert [a, b, c] + [d] == [a, b, c, d];
  }

  /** What is announced of one article: title and source unchanged, only up to ten minutes after its
      publication, only with a word of the lists in its folded title or text, and leaning to the
      side with more words. */
  lemma AnnouncedIf(a: Article, now: int)
    ensures var text := Lower(a.title + " " + a.body);
            var up :=
              One(ContainsText(text, "surge")) + One(ContainsText(text, "rally")) +
              One(ContainsText(text, "bullish")) + One(ContainsText(text, "breakout")) +
              One(ContainsText(text, "ath")) + One(ContainsText(text, "pump")) + One(ContainsText(text, "adoption"));
            var down :=
              One(ContainsText(text, "crash")) + One(ContainsText(text, "dump")) +
              One(ContainsText(text, "bearish")) + One(ContainsText(text, "sell-off")) +
              One(ContainsText(text, "plunge")) + One(ContainsText(text, "hack")) + One(ContainsText(text, "ban")) +
              One(ContainsText(text, "fraud"));
            NoticeFor(a, now) ==
            if now - a.publishedOn <= 600 && up + down > 0
            then Some(Notice(a.title, a.source, if up == down then Neutral else if up < down then Bearish else Bullish))
            else None
  {
    hide ContainsText, Mentions, Lower;
    Counted(Lower(a.title + " " + a.body));
  }

  /** The sentiment of one article. */
  method Judge(d: Article, now: int) returns (notice: Option<Notice>)
    ensures notice == NoticeFor(d, now)
    ensures var text := Lower(d.title + " " + d.body);
            && (notice.Some? <==> now - d.publishedOn <= 600
                                  && exists i ::
                                       0 <= i < |BULLISH + BEARISH| && ContainsText(text, (BULLISH + BEARISH)[i]))
            && (notice.Some? ==> notice.value.title == d.title && notice.value.source == d.source)
            && (notice.Some? && notice.value.sentiment.Bullish? <==>
                  notice.Some? && Mentions(BULLISH, text) > Mentions(BEARISH, text))
            && (notice.Some? && notice.value.sentiment.Bearish? <==>
                  notice.Some? && Mentions(BULLISH, text) < Mentions(BEARISH, text))
  {
    hide Mentions, Lower, ContainsText;
    SomeMention(BULLISH, BEARISH, Lower(d.title + " " + d.body));
    var text := Lower(d.title + " " + d.body);
    if now - d.publishedOn > MAX_AGE_SECONDS {
      return None;
    }
    var up := CountMentions(BULLISH, text);
    var down := CountMentions(BEARISH, text);
    if up == 0 && down == 0 {
      return None;
    }
    var sentiment := Neutral;
    if up > down {
      sentiment := Bullish;
    }
    if down > up {
      sentiment := Bearish;
    }
    return Some(Notice(d.title, d.source, sentiment));
  }

  /** The brain's news memory. */
  class NewsBrain {
    var seen: set<string>
    var seenOrder: seq<string>
    var sent: seq<Notice>
    ghost var inserted: seq<string>

    ghost predicate Valid()
      reads this
    {
      && (forall u :: u in seen <==> u in seenOrder)
      && Remembers(seenOrder, inserted)
    }

    constructor ()
      ensures Valid() && seenOrder == [] && sent == [] && inserted == []
    {
      seen, seenOrder, sent, inserted := {}, [], [], [];
    }

    /** One scan: every new article of the batch is taken in and announced at most once, nothing
        else is; a set past a thousand is then halved, which leaves at most a thousand exactly when
        it held at most two thousand. */
    method ScanNews(batch: seq<Article>, now: int)
      requires Valid()
      modifies this
      ensures Valid()
      ensures var taken := NewArticles(batch, old(seen));
              var n := |old(seenOrder)| + |taken|;
              && inserted == old(inserted) + Urls(taken)
              && sent == old(sent) + Notices(taken, now)
              && seenOrder == Last(if n > 1000 then n - n / 2 else n, old(seenOrder) + Urls(taken))
              && (|seenOrder| <= 1000 <==> n <= 2000)
    {
      hide Remembers, NewArticles, Notices, Urls, NoticeFor;
      TakeIn(batch, now);
      if |seenOrder| > SEEN_MAX {
        Evict();
      }
    }

    /** One article: a URL already seen is skipped, any other is taken in and judged. */
    method TakeOne(d: Article, now: int)
      requires Valid()
      modifies this
      ensures Valid()
      ensures if d.url in old(seen) then
                seen == old(seen) && seenOrder == old(seenOrder) && inserted == old(inserted) && sent == old(sent)
              else
                && seen == old(seen) + {d.url} && seenOrder == old(seenOrder) + [d.url]
                   && inserted == old(inserted) + [d.url]
                && sent == old(sent) + if NoticeFor(d, now).Some? then [NoticeFor(d, now).value] else []
    {
      hide Remembers, NoticeFor;
      if d.url in seen {
        return;
      }
      InsertRemembers(seenOrder, inserted, d.url);
      seen := seen + {d.url};
      seenOrder := seenOrder + [d.url];
      inserted := inserted + [d.url];
      if now - d.publishedOn > MAX_AGE_SECONDS {
        StaleIsSilent(d, now);
        return;
      }
      var notice := Judge(d, now);
      if notice.Some? {
        sent := sent + [notice.value];
      }
    }

    /** The loop over one response. */
    method TakeIn(batch: seq<Article>, now: int)
      requires Valid()
      modifies this
      ensures Valid()
      ensures var taken := NewArticles(batch, old(seen));
              && inserted == old(inserted) + Urls(taken)
              && sent == old(sent) + Notices(taken, now)
              && seenOrder == old(seenOrder) + Urls(taken)
    {
      hide Remembers, NoticeFor, NewArticles, Urls, Notices;
      NothingTaken(batch, seen, now);
      for i := 0 to |batch|
        invariant Valid()
        invariant forall u :: u in seen <==> u in old(seen) || exists k :: 0 <= k < i && batch[k].url == u
        invariant inserted == old(inserted) + Urls(NewArticles(batch[..i], old(seen)))
        invariant sent == old(sent) + Notices(NewArticles(batch[..i], old(seen)), now)
        invariant seenOrder == old(seenOrder) + Urls(NewArticles(batch[..i], old(seen)))
      {
        NewArticlesStep(batch, i, old(seen), seen);
        TakenStep(NewArticles(batch[..i], old(seen)), batch[i], now);
        assert batch[i].url in seen ==> seen + {batch[i].url} == seen;
        TakeOne(batch[i], now);
      }
      assert batch[..|batch|] == batch;
    }

    /** The oldest half goes, from the set and from the front of the order. */
    method Evict()
      requires Valid() && |seenOrder| > SEEN_MAX
      modifies this`seen, this`seenOrder
      ensures Valid()
      ensures seenOrder == old(seenOrder)[|old(seenOrder)| / 2..]
    {
      SameSize(seen, seenOrder);
      EvictRemembers(seenOrder, inserted);
      var half := |seen| / 2;
      var i := 0;
      while i < half && i < |seenOrder|
        invariant 0 <= i <= half && seenOrder == old(seenOrder)
        invariant forall u :: u in seen <==> u in seenOrder[i..]
      {
        DistinctHead(seenOrder[i..]);
        seen := seen - {seenOrder[i]};
        assert seenOrder[i..][0] == seenOrder[i];
        assert seenOrder[i..][1..] == seenOrder[i + 1..];
        i := i + 1;
      }
      seenOrder := if half < |seenOrder| then seenOrder[half..] else [];
    }
  }

  // -------------------------------------------------------------- the bound can fail

  function Numbered(n: nat): (r: seq<Article>)
    ensures |r| == n
  {
    seq(n, i requires 0 <= i < n => Article("", "", seq(i, _ => 'a'), "", 0))
  }

  lemma {:induction false} NumberedAllNew(n: nat)
    ensures NewArticles(Numbered(n), {}) == Numbered(n)
  {
    if n > 0 {
      var batch := Numbered(n);
      assert batch[..n - 1] == Numbered(n - 1);
      NumberedAllNew(n - 1);
      assert forall i :: 0 <= i < n ==> |batch[i].url| == i;
      assert batch == batch[..n - 1] + [batch[n - 1]];
    }
  }

  /** One batch of 2001 different URLs leaves a thousand and one remembered. */
  method OverflowingBatch() returns (brain: NewsBrain)
    ensures brain.Valid() && |brain.seenOrder| == 1001
  {
    hide Numbered, NewArticles, Urls, Notices, Remembers, NoticeFor, Last;
    brain := new NewsBrain();
    NumberedAllNew(2001);
    NothingSeen(brain);
    brain.ScanNews(Numbered(2001), 0);
  }

  lemma NothingSeen(brain: NewsBrain)
    requires brain.Valid() && brain.seenOrder == []
    ensures brain.seen == {}
  {
  }
}

// The bounded folder crawl and table read, fed by pages whose size depends on
// the room left, and the unbounded listings they are prefixes of.
module FolderScans {
  import opened Prelude

  type Folder = string
  type PageToken = string

  // A file as Feishu returns it: every field may be missing.
  datatype RawFile = RawFile(
    token: Option<string>,     // first of token, file_token, document_id, obj_token, id
    kind: Option<string>,      // first of type, file_type, obj_type, mime_type
    name: Option<string>,      // first of name, title, file_name, obj_name
    parent: Option<string>,
    editedAt: Option<int>)     // the instant, when it can be read as one

  datatype Entry = Entry(token: string, title: string, kind: string, parent: string, editedAt: Option<int>)

  // token: first of page_token, next_page_token, nextPageToken; hasMore: first
  // of has_more, hasMore.
  datatype Page<T> = Page(items: seq<T>, token: Option<PageToken>, hasMore: Option<bool>) {
    // The token to go on with, if the loop goes on.
    function NextToken(): Option<PageToken> {
      if token.Some? && token.value != "" && (hasMore.None? || hasMore.value) then token else None
    }
  }

  // A paged remote listing. `page` answers a request; `rest` is all that is still
  // to come from a position and `pagesLeft` bounds how many pages that takes.
  datatype Listing<!K, T> = Listing(
    page: (K, Option<PageToken>, nat) -> Page<T>,
    rest: (K, Option<PageToken>) -> seq<T>,
    pagesLeft: (K, Option<PageToken>) -> nat)

  // However a page is cut, it and what follows it are what was left before.
  ghost predicate Answers<K, T>(l: Listing<K, T>, k: K, at: Option<PageToken>, size: nat) {
    var p := l.page(k, at, size);
    match p.NextToken()
    case None => l.rest(k, at) == p.items
    case Some(_) =>
      && l.rest(k, at) == p.items + l.rest(k, p.NextToken())
      && l.pagesLeft(k, p.NextToken()) < l.pagesLeft(k, at)
  }

  ghost predicate Coherent<K(!new), T(!new)>(l: Listing<K, T>) {
    forall k, at, size :: size > 0 ==> Answers(l, k, at, size)
  }

  // The server never returns more items than it was asked for.
  ghost predicate Honours<K(!new), T(!new)>(l: Listing<K, T>) {
    forall k, at, size :: size > 0 ==> |l.page(k, at, size).items| <= size
  }

  // ---- normalisation of one folder page

  function Normalize(raw: RawFile, folder: Folder): Option<Entry> {
    if raw.token.None? || raw.token.value == "" then None
    else
      var title := if raw.name.Some? then raw.name.value else raw.token.value;
      if title == "" then None
      else Some(Entry(raw.token.value, title,
                      if raw.kind.Some? then raw.kind.value else "unknown",
                      if raw.parent.Some? then raw.parent.value else folder,
                      raw.editedAt))
  }

  function Valid(raws: seq<RawFile>, folder: Folder): (es: seq<Entry>)
    ensures |es| <= |raws|
  {
    if raws == [] then []
    else
      var rest := Valid(raws[1..], folder);
      match Normalize(raws[0], folder)
      case None => rest
      case Some(e) => [e] + rest
  }

  lemma {:induction false} ValidConcat(a: seq<RawFile>, b: seq<RawFile>, folder: Folder)
    ensures Valid(a + b, folder) == Valid(a, folder) + Valid(b, folder)
  {
    if a == [] {
      assert a + b == b;
    } else {
      assert (a + b)[0] == a[0] && (a + b)[1..] == a[1..] + b;
      ValidConcat(a[1..], b, folder);
    }
  }

  function Folders(es: seq<Entry>): (q: seq<Folder>)
    ensures |q| <= |es|
  {
    if es == [] then []
    else (if es[0].kind == "folder" then [es[0].token] else []) + Folders(es[1..])
  }

  lemma {:induction false} FoldersConcat(a: seq<Entry>, b: seq<Entry>)
    ensures Folders(a + b) == Folders(a) + Folders(b)
  {
    if a == [] {
      assert a + b == b;
    } else {
      assert (a + b)[0] == a[0] && (a + b)[1..] == a[1..] + b;
      FoldersConcat(a[1..], b);
      Assoc(if a[0].kind == "folder" then [a[0].token] else [], Folders(a[1..]), Folders(b));
    }
  }

  // ---- the unbounded breadth-first listing

  // The valid entries of the first k folders taken from the queue, in order.
  function BreadthFirst(l: Listing<Folder, RawFile>, queue: seq<Folder>, k: nat): seq<Entry>
    decreases k
  {
    if k == 0 || queue == [] then []
    else
      var es := Valid(l.rest(queue[0], None), queue[0]);
      es + BreadthFirst(l, queue[1..] + Folders(es), k - 1)
  }

  // Looking at more folders only extends it, and once it holds fewer entries
  // than folders were allowed it is complete.
  lemma {:induction false} MoreFoldersExtend(l: Listing<Folder, RawFile>, queue: seq<Folder>, k: nat, k': nat)
    requires k <= k'
    ensures BreadthFirst(l, queue, k) <= BreadthFirst(l, queue, k')
    ensures |BreadthFirst(l, queue, k)| + |queue| <= k ==> BreadthFirst(l, queue, k') == BreadthFirst(l, queue, k)
    decreases k
  {
    if k > 0 && queue != [] {
      var es := Valid(l.rest(queue[0], None), queue[0]);
      MoreFoldersExtend(l, queue[1..] + Folders(es), k - 1, k' - 1);
    }
  }

  // So limit + 1 folders decide the first `limit` entries of the whole crawl.
  lemma LimitPlusOneFoldersSuffice(l: Listing<Folder, RawFile>, root: Folder, limit: nat, k: nat)
    requires k > limit
    ensures Take(BreadthFirst(l, [root], k), limit) == Take(BreadthFirst(l, [root], limit + 1), limit)
    ensures |BreadthFirst(l, [root], limit + 1)| < limit ==>
      BreadthFirst(l, [root], k) == BreadthFirst(l, [root], limit + 1)
  {
    MoreFoldersExtend(l, [root], limit + 1, k);
  }

  // ---- the requests of a crawl

  // A page asked for with this much room left.
  datatype Request = Request(folder: Folder, at: Option<PageToken>, room: nat)

  function PageItems(l: Listing<Folder, RawFile>, q: Request): seq<Entry> {
    Valid(l.page(q.folder, q.at, if q.room < 200 then q.room else 200).items, q.folder)
  }

  // The page held more valid entries than there was room for.
  predicate Overflows(l: Listing<Folder, RawFile>, q: Request) { |PageItems(l, q)| > q.room }

  // The requests made so far, the latest outside.
  datatype Log = Started | Then(before: Log, q: Request)

  function Collected(l: Listing<Folder, RawFile>, log: Log): seq<Entry> {
    match log
    case Started => []
    case Then(before, q) => Collected(l, before) + Take(PageItems(l, q), q.room)
  }

  // Each page is asked for with the room that is left and adds what fits, and
  // only the last one can overflow.
  ghost predicate Requested(l: Listing<Folder, RawFile>, log: Log, limit: nat, overflowed: bool) {
    match log
    case Started => !overflowed
    case Then(before, q) =>
      && Requested(l, before, limit, false)
      && |Collected(l, before)| + q.room == limit && q.room > 0
      && (overflowed <==> Overflows(l, q))
  }

  ghost predicate Logged(l: Listing<Folder, RawFile>, log: Log, limit: nat, entries: seq<Entry>, truncated: bool) {
    entries == Collected(l, log) && Requested(l, log, limit, truncated)
  }

  lemma OneMoreRequest(l: Listing<Folder, RawFile>, log: Log, limit: nat, entries: seq<Entry>, q: Request)
    requires Logged(l, log, limit, entries, false) && |entries| + q.room == limit && q.room > 0
    ensures Logged(l, Then(log, q), limit, entries + Take(PageItems(l, q), q.room), Overflows(l, q))
  {
  }

  predicate SomeOverflows(l: Listing<Folder, RawFile>, log: Log) {
    log.Then? && (Overflows(l, log.q) || SomeOverflows(l, log.before))
  }

  // The flag is set exactly when some page held more than was asked for.
  lemma {:induction false} FlagMeansOverflow(l: Listing<Folder, RawFile>, log: Log, limit: nat, truncated: bool)
    requires Requested(l, log, limit, truncated)
    ensures truncated <==> SomeOverflows(l, log)
  {
    if log.Then? { FlagMeansOverflow(l, log.before, limit, false); }
  }

  lemma HonestNeverOverflows(l: Listing<Folder, RawFile>, log: Log, limit: nat, overflowed: bool)
    requires Requested(l, log, limit, overflowed)
    ensures Honours(l) ==> !overflowed
  {
    if Honours(l) && log.Then? {
      assert |l.page(log.q.folder, log.q.at, if log.q.room < 200 then log.q.room else 200).items| <= log.q.room;
    }
  }

  // ---- what the pages of a crawl say, file by file

  // Files without a token, or with an empty name, are passed over.
  predicate Usable(raw: RawFile) {
    raw.token.Some? && raw.token.value != "" && (raw.name.Some? ==> raw.name.value != "")
  }

  predicate Describes(e: Entry, raw: RawFile, folder: Folder) {
    && raw.token == Some(e.token)
    && e.title == (match raw.name case Some(name) => name case None => e.token)
    && e.kind == (match raw.kind case Some(kind) => kind case None => "unknown")
    && e.parent == (match raw.parent case Some(parent) => parent case None => folder)
    && e.editedAt == raw.editedAt
  }

  // One entry for each usable file, in order.
  ghost predicate Lists(es: seq<Entry>, raws: seq<RawFile>, folder: Folder) {
    if raws == [] then es == []
    else if !Usable(raws[0]) then Lists(es, raws[1..], folder)
    else es != [] && Describes(es[0], raws[0], folder) && Lists(es[1..], raws[1..], folder)
  }

  lemma {:induction false} ValidLists(raws: seq<RawFile>, folder: Folder)
    ensures Lists(Valid(raws, folder), raws, folder)
  {
    if raws != [] { ValidLists(raws[1..], folder); }
  }

  lemma {:induction false} ListedFrom(es: seq<Entry>, raws: seq<RawFile>, folder: Folder, e: Entry)
    requires Lists(es, raws, folder) && e in es
    ensures exists raw :: raw in raws && Usable(raw) && Describes(e, raw, folder)
  {
    if Usable(raws[0]) && es[0] == e {
      assert raws[0] in raws;
    } else {
      ListedFrom(if Usable(raws[0]) then es[1..] else es, raws[1..], folder, e);
      var raw :| raw in raws[1..] && Usable(raw) && Describes(e, raw, folder);
      assert raw in raws;
    }
  }

  // A page is asked for with the room left, two hundred files at most.
  function PageOf(l: Listing<Folder, RawFile>, q: Request): Page<RawFile> {
    l.page(q.folder, q.at, if q.room < 200 then q.room else 200)
  }

  // The page says that there is another one.
  predicate More(l: Listing<Folder, RawFile>, q: Request) {
    var p := PageOf(l, q);
    p.token.Some? && p.token.value != "" && p.hasMore != Some(false)
  }

  // After a page that has another one that one is asked for, and otherwise the
  // first page of a folder.
  predicate Continues(l: Listing<Folder, RawFile>, before: Log, folder: Folder, at: Option<PageToken>) {
    if before.Then? && More(l, before.q) then folder == before.q.folder && at == PageOf(l, before.q).token
    else at.None?
  }

  // The token of a file of kind "folder" on a page that was read.
  ghost predicate NamedFolder(l: Listing<Folder, RawFile>, log: Log, folder: Folder) {
    log.Then? &&
    (|| NamedFolder(l, log.before, folder)
     || exists raw :: raw in PageOf(l, log.q).items && Usable(raw)
                      && raw.kind == Some("folder") && raw.token == Some(folder))
  }

  // The entries are the usable files of the requested pages, in order, as far as
  // there was room; and only the root and folders named before are asked for.
  ghost predicate Traced(l: Listing<Folder, RawFile>, root: Folder, log: Log, entries: seq<Entry>) {
    match log
    case Started => entries == []
    case Then(before, q) =>
      && (q.folder == root || NamedFolder(l, before, q.folder))
      && Continues(l, before, q.folder, q.at)
      && exists had, es ::
           Traced(l, root, before, had) && Lists(es, PageOf(l, q).items, q.folder) && entries == had + Take(es, q.room)
  }

  // The same while the crawl goes on: a folder that waits was found before.
  predicate Known(root: Folder, entries: seq<Entry>, folder: Folder) { folder == root || folder in Folders(entries) }

  ghost predicate Followed(l: Listing<Folder, RawFile>, root: Folder, log: Log) {
    match log
    case Started => true
    case Then(before, q) =>
      Followed(l, root, before) && Known(root, Collected(l, before), q.folder) && Continues(l, before, q.folder, q.at)
  }

  lemma {:induction false} FolderAmong(es: seq<Entry>, folder: Folder)
    requires folder in Folders(es)
    ensures exists e :: e in es && e.kind == "folder" && e.token == folder
  {
    if es[0].kind == "folder" && es[0].token == folder {
      assert es[0] in es;
    } else {
      FolderAmong(es[1..], folder);
      var e :| e in es[1..] && e.kind == "folder" && e.token == folder;
      assert e in es;
    }
  }

  lemma {:induction false} FoundFoldersAreNamed(l: Listing<Folder, RawFile>, log: Log, folder: Folder)
    requires folder in Folders(Collected(l, log))
    ensures NamedFolder(l, log, folder)
  {
    if log.Then? {
      var q, es := log.q, PageItems(l, log.q);
      FoldersConcat(Collected(l, log.before), Take(es, q.room));
      if folder in Folders(Collected(l, log.before)) {
        FoundFoldersAreNamed(l, log.before, folder);
      } else {
        FolderAmong(Take(es, q.room), folder);
        var e :| e in Take(es, q.room) && e.kind == "folder" && e.token == folder;
        ValidLists(PageOf(l, q).items, q.folder);
        ListedFrom(es, PageOf(l, q).items, q.folder, e);
      }
    }
  }

  lemma {:induction false} FollowedIsTraced(l: Listing<Folder, RawFile>, root: Folder, log: Log)
    requires Followed(l, root, log)
    ensures Traced(l, root, log, Collected(l, log))
  {
    if log.Then? {
      var before, q := log.before, log.q;
      FollowedIsTraced(l, root, before);
      if q.folder != root { FoundFoldersAreNamed(l, before, q.folder); }
      ValidLists(PageOf(l, q).items, q.folder);
      assert Lists(PageItems(l, q), PageOf(l, q).items, q.folder);
    }
  }

  lemma KnownStays(root: Folder, entries: seq<Entry>, later: seq<Entry>, folder: Folder)
    requires Known(root, entries, folder) && entries <= later
    ensures Known(root, later, folder)
  {
    assert later == entries + later[|entries|..];
    FoldersConcat(entries, later[|entries|..]);
  }

  // ---- the crawl itself

  // The inner loop over one page.
  method AddItems(items: seq<Entry>, limit: nat, entries: seq<Entry>, queue: seq<Folder>)
    returns (entries': seq<Entry>, queue': seq<Folder>, truncated: bool)
    requires |entries| <= limit
    ensures entries' == entries + Take(items, limit - |entries|)
    ensures queue' == queue + Folders(Take(items, limit - |entries|))
    ensures truncated <==> |entries| + |items| > limit
  {
    entries', queue', truncated := entries, queue, false;
    var i := 0;
    while i < |items|
      invariant 0 <= i <= |items| && |entries| + i <= limit && !truncated
      invariant entries' == entries + items[..i] && queue' == queue + Folders(items[..i])
    {
      if |entries'| >= limit {
        truncated := true;
        break;
      }
      OneMoreItem(entries, queue, items, i);
      entries' := entries' + [items[i]];
      if items[i].kind == "folder" {
        queue' := queue' + [items[i].token];
      }
      i := i + 1;
    }
    assert items[..i] == Take(items, limit - |entries|);
  }

  lemma OneMoreItem(entries: seq<Entry>, queue: seq<Folder>, items: seq<Entry>, i: nat)
    requires i < |items|
    ensures entries + items[..i + 1] == entries + items[..i] + [items[i]]
    ensures queue + Folders(items[..i + 1])
         == queue + Folders(items[..i]) + if items[i].kind == "folder" then [items[i].token] else []
  {
    assert items[..i + 1] == items[..i] + [items[i]];
    FoldersConcat(items[..i], [items[i]]);
    assert Folders([items[i]]) == if items[i].kind == "folder" then [items[i].token] else [];
  }

  // All pages of one folder, as far as there is room.
  method ReadFolder(l: Listing<Folder, RawFile>, folder: Folder, limit: nat, entries: seq<Entry>, queue: seq<Folder>,
                    ghost root: Folder, ghost log: Log)
    returns (entries': seq<Entry>, queue': seq<Folder>, truncated: bool, ghost log': Log)
    requires Coherent(l) && |entries| < limit && Logged(l, log, limit, entries, false)
    requires Reading(l, root, log, entries, folder, None)
    ensures Followed(l, root, log')
    ensures |entries'| < limit ==> forall f :: Continues(l, log', f, None)
    ensures var listing := Valid(l.rest(folder, None), folder);
      && entries' == entries + Take(listing, limit - |entries|)
      && queue' == queue + Folders(Take(listing, limit - |entries|))
      && (truncated ==> |entries| + |listing| > limit)
    ensures Logged(l, log', limit, entries', truncated)
  {
    entries', queue', truncated, log' := entries, queue, false, log;
    var at: Option<PageToken> := None;
    ghost var room: nat := limit - |entries|;
    ghost var listing := Valid(l.rest(folder, None), folder);
    ghost var done: seq<Entry> := [];
    NothingDone(entries, queue, listing, room);
    while true
      invariant SoFar(entries, queue, entries', queue', done, listing, Valid(l.rest(folder, at), folder), room)
        && !truncated
      invariant |entries'| < limit
      invariant Logged(l, log', limit, entries', false)
      invariant Reading(l, root, log', entries', folder, at)
      decreases l.pagesLeft(folder, at)
    {
      var next;
      ghost var had, before := entries', log';
      entries', queue', truncated, next, done, log' :=
        ReadMore(l, folder, at, limit, entries', queue', log', entries, queue, done, listing, room);
      PageIsFollowed(l, root, before, had, folder, at, next, log', entries');
      if next.None? || |entries'| >= limit {
        break;
      }
      at := next;
    }
  }

  // The crawl is at this position of a folder that was found before.
  ghost predicate Reading(l: Listing<Folder, RawFile>, root: Folder, log: Log, entries: seq<Entry>, folder: Folder,
                          at: Option<PageToken>) {
    Followed(l, root, log) && Known(root, entries, folder) && Continues(l, log, folder, at)
  }

  lemma PageIsFollowed(l: Listing<Folder, RawFile>, root: Folder, log: Log, had: seq<Entry>, folder: Folder,
                       at: Option<PageToken>, next: Option<PageToken>, log': Log, entries: seq<Entry>)
    requires Reading(l, root, log, had, folder, at) && had == Collected(l, log) && had <= entries
    requires log'.Then? && LogOfPage(l, log, folder, at, log'.q.room, next, log')
    ensures Followed(l, root, log')
    ensures next.Some? ==> Reading(l, root, log', entries, folder, next)
    ensures next.None? ==> forall f :: Continues(l, log', f, None)
  {
    KnownStays(root, had, entries, folder);
  }

  // One page more of a folder whose listing was read so far.
  method ReadMore(l: Listing<Folder, RawFile>, folder: Folder, at: Option<PageToken>, limit: nat,
                  had: seq<Entry>, waited: seq<Folder>, ghost log: Log,
                  ghost entries: seq<Entry>, ghost queue: seq<Folder>,
                  ghost done: seq<Entry>, ghost listing: seq<Entry>, ghost room: nat)
    returns (entries': seq<Entry>, queue': seq<Folder>, truncated: bool, next: Option<PageToken>,
             ghost done': seq<Entry>, ghost log': Log)
    requires Coherent(l) && |entries| + room == limit && |had| < limit && Logged(l, log, limit, had, false)
    requires SoFar(entries, queue, had, waited, done, listing, Valid(l.rest(folder, at), folder), room)
    ensures next.Some? ==> l.pagesLeft(folder, next) < l.pagesLeft(folder, at)
    ensures if next.None? || |entries'| >= limit then AllRead(entries, queue, entries', queue', listing, room)
            else && SoFar(entries, queue, entries', queue', done', listing, Valid(l.rest(folder, next), folder), room)
                 && !truncated
    ensures |entries'| <= limit && (truncated ==> |listing| > room)
    ensures Logged(l, log', limit, entries', truncated)
    ensures had <= entries' && LogOfPage(l, log, folder, at, limit - |had|, next, log')
  {
    ghost var items;
    entries', queue', truncated, next, items, log' := ReadPage(l, folder, at, limit, had, waited, log);
    PageTaken(entries, queue, had, waited, done, listing, items, Later(l, folder, next), room);
    done' := done + items;
  }

  // The page was asked for with that room, and `next` is where it goes on.
  ghost predicate LogOfPage(l: Listing<Folder, RawFile>, log: Log, folder: Folder, at: Option<PageToken>, room: nat,
                            next: Option<PageToken>, log': Log) {
    log' == Then(log, Request(folder, at, room)) && next == PageOf(l, log'.q).NextToken()
  }

  // What fits of the listing was added.
  ghost predicate AllRead(entries: seq<Entry>, queue: seq<Folder>, entries': seq<Entry>, queue': seq<Folder>,
      listing: seq<Entry>, room: nat) {
    entries' == entries + Take(listing, room) && queue' == queue + Folders(Take(listing, room))
  }

  // Of a folder's listing `done` was read and `later` is still to come; there is
  // room for more.
  ghost predicate SoFar(entries: seq<Entry>, queue: seq<Folder>, entries': seq<Entry>, queue': seq<Folder>,
                        done: seq<Entry>, listing: seq<Entry>, later: seq<Entry>, room: nat) {
    && |done| < room
    && entries' == entries + done && queue' == queue + Folders(done)
    && listing == done + later
  }

  lemma NothingDone(entries: seq<Entry>, queue: seq<Folder>, listing: seq<Entry>, room: nat)
    requires room > 0
    ensures SoFar(entries, queue, entries, queue, [], listing, listing, room)
  {
  }

  // One page read and added.
  method ReadPage(l: Listing<Folder, RawFile>, folder: Folder, at: Option<PageToken>, limit: nat,
                  entries: seq<Entry>, queue: seq<Folder>, ghost log: Log)
    returns (entries': seq<Entry>, queue': seq<Folder>, truncated: bool, next: Option<PageToken>,
             ghost items: seq<Entry>, ghost log': Log)
    requires Coherent(l) && |entries| < limit && Logged(l, log, limit, entries, false)
    ensures Valid(l.rest(folder, at), folder) == items + Later(l, folder, next)
    ensures next.Some? ==> l.pagesLeft(folder, next) < l.pagesLeft(folder, at)
    ensures entries' == entries + Take(items, limit - |entries|)
    ensures queue' == queue + Folders(Take(items, limit - |entries|))
    ensures truncated <==> |entries| + |items| > limit
    ensures Logged(l, log', limit, entries', truncated)
    ensures LogOfPage(l, log, folder, at, limit - |entries|, next, log')
  {
    ghost var q := Request(folder, at, limit - |entries|);
    var page;
    page, next := FolderPage(l, folder, at, limit - |entries|);
    assert page == PageItems(l, q);
    OneMoreRequest(l, log, limit, entries, q);
    items, log' := page, Then(log, q);
    entries', queue', truncated := AddItems(page, limit, entries, queue);
  }

  // One request for a page of a folder, and what it says about the rest of it.
  method FolderPage(l: Listing<Folder, RawFile>, folder: Folder, at: Option<PageToken>, room: nat)
    returns (items: seq<Entry>, next: Option<PageToken>)
    requires Coherent(l) && room > 0
    ensures items == PageItems(l, Request(folder, at, room))
    ensures Valid(l.rest(folder, at), folder) == items + Later(l, folder, next)
    ensures next.Some? ==> l.pagesLeft(folder, next) < l.pagesLeft(folder, at)
    ensures next == PageOf(l, Request(folder, at, room)).NextToken()
  {
    var size := if room < 200 then room else 200;
    var page := l.page(folder, at, size);
    items, next := Valid(page.items, folder), page.NextToken();
    assert Answers(l, folder, at, size);
    if next.Some? {
      ValidConcat(page.items, l.rest(folder, next), folder);
    }
  }

  // The valid entries still to come after a page.
  function Later(l: Listing<Folder, RawFile>, folder: Folder, next: Option<PageToken>): seq<Entry> {
    if next.None? then [] else Valid(l.rest(folder, next), folder)
  }

  // Adding a page, and when that is all that is wanted.
  lemma PageTaken(entries: seq<Entry>, queue: seq<Folder>, had: seq<Entry>, waited: seq<Folder>,
                  done: seq<Entry>, listing: seq<Entry>, items: seq<Entry>, later: seq<Entry>, room: nat)
    requires SoFar(entries, queue, had, waited, done, listing, items + later, room)
    ensures var taken := Take(items, room - |done|); var entries', queue' := had + taken, waited + Folders(taken);
      && |entries'| <= |entries| + room
      && (|entries'| == |entries| + room || later == [] ==>
            entries' == entries + Take(listing, room) && queue' == queue + Folders(Take(listing, room)))
      && (|entries'| < |entries| + room ==> SoFar(entries, queue, entries', queue', done + items, listing, later, room))
      && (|done| + |items| > room ==> |listing| > room)
  {
    var taken := Take(items, room - |done|);
    TakeConcat(done, items, room);
    FoldersConcat(done, taken);
    Assoc(entries, done, taken);
    Assoc(queue, Folders(done), Folders(taken));
    Assoc(done, items, later);
    TakeConcat(done + items, later, room);
    NothingMore(done + items, later);
  }

  // Adding a folder: what was found before is followed by its listing and then
  // by what lies beyond it.
  lemma FolderTaken(found: seq<Entry>, listing: seq<Entry>, beyond: seq<Entry>, limit: nat)
    requires |found| < limit
    ensures var all := found + (listing + beyond); var entries := found + Take(listing, limit - |found|);
      && entries <= all && |entries| <= limit
      && (|entries| < limit ==> Take(listing, limit - |found|) == listing && all == entries + beyond)
      && (|found| + |listing| > limit ==> |all| > limit)
  {
    Assoc(found, listing, beyond);
  }

  // The entries are the first of all, what is queued leads to the rest, and
  // enough folders may still be looked at.
  ghost predicate OnTrack(l: Listing<Folder, RawFile>, all: seq<Entry>, entries: seq<Entry>, queue: seq<Folder>,
      limit: nat, k: nat) {
    all == entries + BreadthFirst(l, queue, k) && |queue| + limit <= k + |entries|
  }

  lemma QueueIsEmpty(l: Listing<Folder, RawFile>, all: seq<Entry>, entries: seq<Entry>, limit: nat, k: nat)
    requires OnTrack(l, all, entries, [], limit, k) && |entries| <= limit
    ensures entries == Take(all, limit) == all
  {
    NothingMore(entries, BreadthFirst(l, [], k));
  }

  // The next folder of the queue, with k folders more to look at at most.
  method ReadNext(l: Listing<Folder, RawFile>, limit: nat, entries: seq<Entry>, queue: seq<Folder>,
                  ghost root: Folder, ghost log: Log, ghost all: seq<Entry>, ghost k: nat)
    returns (entries': seq<Entry>, queue': seq<Folder>, cut: bool, ghost log': Log)
    requires Coherent(l) && queue != [] && |entries| < limit && Logged(l, log, limit, entries, false)
    requires OnTrack(l, all, entries, queue, limit, k + 1)
    requires InReach(l, root, log, entries, queue)
    ensures Followed(l, root, log') && (|entries'| < limit ==> InReach(l, root, log', entries', queue'))
    ensures |entries'| < limit ==> OnTrack(l, all, entries', queue', limit, k) && !cut
    ensures |entries'| >= limit ==> entries' == Take(all, limit)
    ensures cut ==> |all| > limit
    ensures |entries| <= |entries'| && (|entries'| == |entries| ==> |queue'| < |queue|)
    ensures Logged(l, log', limit, entries', cut)
  {
    var folder, waiting := queue[0], queue[1..];
    ghost var listing := Valid(l.rest(folder, None), folder);
    FolderTaken(entries, listing, BreadthFirst(l, waiting + Folders(listing), k), limit);
    entries', queue', cut, log' := ReadFolder(l, folder, limit, entries, waiting, root, log);
    ghost var taken := Take(listing, limit - |entries|);
    WaitingStaysKnown(root, entries, waiting, taken);
  }

  // The crawl may go on with any folder that waits.
  ghost predicate InReach(l: Listing<Folder, RawFile>, root: Folder, log: Log, entries: seq<Entry>,
                          queue: seq<Folder>) {
    && Followed(l, root, log) && AllKnown(root, entries, queue)
    && forall f :: Continues(l, log, f, None)
  }

  ghost predicate AllKnown(root: Folder, entries: seq<Entry>, queue: seq<Folder>) {
    forall f | f in queue :: Known(root, entries, f)
  }

  lemma WaitingStaysKnown(root: Folder, entries: seq<Entry>, waiting: seq<Folder>, taken: seq<Entry>)
    requires AllKnown(root, entries, waiting)
    ensures AllKnown(root, entries + taken, waiting + Folders(taken))
  {
    FoldersConcat(entries, taken);
  }

  // A folder is queued only when an entry is added, so the crawl ends on every
  // folder graph, cyclic ones too, whose page chains are finite. The flag is set
  // exactly when some page held more than the room it was asked for with.
  method ScanEntries(l: Listing<Folder, RawFile>, root: Folder, limit: nat)
    returns (entries: seq<Entry>, truncated: bool, ghost log: Log)
    requires Coherent(l)
    ensures entries == Take(BreadthFirst(l, [root], limit + 1), limit)
    ensures truncated ==> |BreadthFirst(l, [root], limit + 1)| > limit
    ensures Logged(l, log, limit, entries, truncated) && (truncated <==> SomeOverflows(l, log))
    ensures Honours(l) ==> !truncated
    ensures Traced(l, root, log, entries)
  {
    ghost var all := BreadthFirst(l, [root], limit + 1);
    NothingMore([], all);
    assert OnTrack(l, all, [], [root], limit, limit + 1);
    entries, truncated, log := Crawl(l, root, limit, all);
    FlagMeansOverflow(l, log, limit, truncated);
    HonestNeverOverflows(l, log, limit, truncated);
    FollowedIsTraced(l, root, log);
  }

  lemma RootIsInReach(l: Listing<Folder, RawFile>, root: Folder, limit: nat)
    ensures InReach(l, root, Started, [], [root]) && Logged(l, Started, limit, [], false)
  {
  }

  // Where a crawl stands between two folders.
  ghost predicate Underway(l: Listing<Folder, RawFile>, root: Folder, all: seq<Entry>, limit: nat,
                           entries: seq<Entry>, queue: seq<Folder>, cut: bool, log: Log, k: nat) {
    && Logged(l, log, limit, entries, cut) && Followed(l, root, log)
    && (cut ==> |all| > limit)
    && (if |entries| < limit
        then !cut && OnTrack(l, all, entries, queue, limit, k) && InReach(l, root, log, entries, queue)
        else entries == Take(all, limit))
  }

  method Crawl(l: Listing<Folder, RawFile>, root: Folder, limit: nat, ghost all: seq<Entry>)
    returns (entries: seq<Entry>, truncated: bool, ghost log: Log)
    requires Coherent(l) && OnTrack(l, all, [], [root], limit, limit + 1)
    ensures entries == Take(all, limit) && (truncated ==> |all| > limit)
    ensures Logged(l, log, limit, entries, truncated) && Followed(l, root, log)
  {
    var queue := [root];
    entries, truncated, log := [], false, Started;
    RootIsInReach(l, root, limit);
    ghost var k: nat := limit + 1;  // folders still to be looked at, at most
    while queue != [] && |entries| < limit
      invariant Underway(l, root, all, limit, entries, queue, truncated, log, k)
      decreases limit - |entries|, |queue|
    {
      k := k - 1;
      entries, queue, truncated, log := ReadNext(l, limit, entries, queue, root, log, all, k);
    }
    if |entries| < limit { QueueIsEmpty(l, all, entries, limit, k); }
  }

  // ---- a listing that is cut off without a word

  function OneFile(token: string): RawFile { RawFile(Some(token), Some("docx"), Some(token), None, None) }

  // Every folder holds two files, one a page.
  const TwoPages: Listing<Folder, RawFile> := Listing(
    (k: Folder, at: Option<PageToken>, size: nat) =>
      if at.None? then Page([OneFile("a")], Some("next"), Some(true)) else Page([OneFile("b")], None, None),
    (k: Folder, at: Option<PageToken>) => if at.None? then [OneFile("a"), OneFile("b")] else [OneFile("b")],
    (k: Folder, at: Option<PageToken>) => if at.None? then 1 else 0)

  lemma TwoPagesIsHonest()
    ensures Coherent(TwoPages) && Honours(TwoPages)
  {
    forall k, at, size: nat | size > 0 ensures Answers(TwoPages, k, at, size) {
      if at.None? { assert [OneFile("a")] + [OneFile("b")] == [OneFile("a"), OneFile("b")]; }
    }
  }

  // With room for one entry the crawl leaves the other out and its flag unset.
  lemma CutOffUnflagged()
    ensures Coherent(TwoPages) && Honours(TwoPages)
    ensures |BreadthFirst(TwoPages, ["root"], 2)| > 1
    ensures Logged(TwoPages, Then(Started, Request("root", None, 1)), 1,
      Take(BreadthFirst(TwoPages, ["root"], 2), 1), false)
  {
    TwoPagesIsHonest();
    var a, b := OneFile("a"), OneFile("b");
    var es := Valid([a, b], "root");
    assert [a, b][1..] == [b] && [b][1..] == [] && [a][1..] == [];
    assert Valid([b], "root") == [Normalize(b, "root").value] + Valid([], "root");
    assert es == [Normalize(a, "root").value] + Valid([b], "root");
    var q := Request("root", None, 1);
    assert PageItems(TwoPages, q) == Valid(TwoPages.page("root", None, 1).items, "root");
    assert TwoPages.page("root", None, 1).items == [a];
    OneMoreRequest(TwoPages, Started, 1, [], q);
    assert ["root"][1..] + Folders(es) == [];
    assert BreadthFirst(TwoPages, [], 1) == [];
    assert BreadthFirst(TwoPages, ["root"], 2) == es + BreadthFirst(TwoPages, ["root"][1..] + Folders(es), 1);
  }
}

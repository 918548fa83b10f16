/**
 The boards of all lanes and their unread marks (crates/vp-app/webview/board-handler.ts:81-108,
 156-161, 258-269, 303-367). A board belongs to a (repo, lane) pair; the server sends whole boards, and
 the view derives which items are unread.
 */
module Board {
  import opened Prelude

  /** `born`: when the item was created, if its time stamp can be read. */
  datatype Item = Item(id: string, born: Option<int>)

  datatype Board = Board(items: seq<Item>, cursor: Option<string>, unread: set<string>)

  datatype Message = Message(scope: string, repo: Option<string>, lane: Option<string>, items: seq<Item>,
    cursor: Option<string>)

  const NUL: char := '\U{0}'
  const LEAD := "lead"
  const EMPTY := Board([], None, {})

  // ----- keys -----

  function RepoName(repo: Option<string>): string {
    if repo.Some? then repo.value else ""
  }

  function LaneName(lane: Option<string>): string {
    if lane.Some? then lane.value else LEAD
  }

  function BoardKey(repo: Option<string>, lane: Option<string>): string {
    RepoName(repo) + [NUL] + LaneName(lane)
  }

  predicate NulFree(s: string) {
    NUL !in s
  }

  function NameLength(key: string): nat {
    if key == [] || key[0] == NUL then 0 else 1 + NameLength(key[1..])
  }

  lemma {:induction false} NameEndsAtNul(a: string, b: string)
    requires NulFree(a)
    ensures NameLength(a + [NUL] + b) == |a|
  {
    if a == [] {
    } else {
      assert (a + [NUL] + b)[1..] == a[1..] + [NUL] + b;
      NameEndsAtNul(a[1..], b);
    }
  }

  lemma KeyParts(a: string, b: string, c: string, d: string)
    requires NulFree(a) && NulFree(c) && a + [NUL] + b == c + [NUL] + d
    ensures a == c && b == d
  {
    NameEndsAtNul(a, b);
    NameEndsAtNul(c, d);
    var s := a + [NUL] + b;
    assert s[..|a|] == a && s[..|c|] == c && s[|a| + 1..] == b && s[|c| + 1..] == d;
  }

  /** Two pairs whose repo names hold no NUL share a board exactly when they name the same repo and lane. */
  lemma KeyIsIdentity(repo: Option<string>, lane: Option<string>, repo': Option<string>, lane': Option<string>)
    requires NulFree(RepoName(repo)) && NulFree(RepoName(repo'))
    ensures BoardKey(repo, lane) == BoardKey(repo', lane') <==>
      RepoName(repo) == RepoName(repo') && LaneName(lane) == LaneName(lane')
  {
    if BoardKey(repo, lane) == BoardKey(repo', lane') {
      KeyParts(RepoName(repo), LaneName(lane), RepoName(repo'), LaneName(lane'));
    }
  }

  /** A repo name shares no board with any NUL-free other one exactly when it holds no NUL itself. */
  lemma KeyIsSafeExactlyWhen(repo: string)
    ensures NulFree(repo) <==>
      forall lane: string, repo': string, lane': string ::
        NulFree(repo') && BoardKey(Some(repo), Some(lane)) == BoardKey(Some(repo'), Some(lane')) ==> repo == repo'
  {
    if NulFree(repo) {
      forall lane: string, repo': string, lane': string
        | NulFree(repo') && BoardKey(Some(repo), Some(lane)) == BoardKey(Some(repo'), Some(lane'))
        ensures repo == repo'
      {
        KeyIsIdentity(Some(repo), Some(lane), Some(repo'), Some(lane'));
      }
    } else {
      var i := FirstNul(repo);
      var other, lane' := repo[..i], repo[i + 1..] + [NUL];
      assert repo + [NUL] == other + [NUL] + lane';
      assert BoardKey(Some(repo), Some("")) == BoardKey(Some(other), Some(lane'));
    }
  }

  lemma {:induction false} FirstNul(s: string) returns (i: nat)
    requires !NulFree(s)
    ensures i < |s| && s[i] == NUL && NulFree(s[..i])
  {
    if s[0] == NUL {
      i := 0;
    } else {
      i := FirstNul(s[1..]);
      i := i + 1;
      assert s[..i] == [s[0]] + s[1..][..i - 1];
    }
  }

  // ----- unread -----

  function Ids(items: seq<Item>): set<string> {
    set i <- items :: i.id
  }

  /** The items that are new to the view and were born after it started, in order. */
  function FreshNewIds(items: seq<Item>, prevIds: set<string>, boot: int): (arrived: seq<string>)
    ensures forall id :: id in arrived <==> id !in prevIds && Born(items, id, boot)
  {
    if items == [] then []
    else if items[0].id !in prevIds && items[0].born.Some? && items[0].born.value >= boot then
      [items[0].id] + FreshNewIds(items[1..], prevIds, boot)
    else FreshNewIds(items[1..], prevIds, boot)
  }

  /** The list holds a live arrival of that id. */
  predicate Born(items: seq<Item>, id: string, boot: int) {
    exists i <- items :: i.id == id && i.born.Some? && i.born.value >= boot
  }

  predicate Unread(prevUnread: set<string>, itemIds: set<string>, freshIds: seq<string>, cursor: Option<string>,
      id: string)
  {
    cursor != Some(id) && ((id in prevUnread && id in itemIds) || id in freshIds)
  }

  method ComputeUnread(prevUnread: set<string>, itemIds: set<string>, freshIds: seq<string>, cursor: Option<string>)
    returns (unread: set<string>)
    ensures forall id :: id in unread <==> Unread(prevUnread, itemIds, freshIds, cursor, id)
  {
    unread := {};
    var left := prevUnread;
    while left != {}
      invariant left <= prevUnread
      invariant forall id :: id in unread <==> id in prevUnread - left && id in itemIds && cursor != Some(id)
    {
      var id :| id in left;
      if id in itemIds && cursor != Some(id) {
        unread := unread + {id};
      }
      left := left - {id};
    }
    ghost var kept := unread;
    for k := 0 to |freshIds|
      invariant forall id :: id in unread <==> id in kept || (id in freshIds[..k] && cursor != Some(id))
    {
      assert freshIds[..k + 1] == freshIds[..k] + [freshIds[k]];
      if cursor != Some(freshIds[k]) {
        unread := unread + {freshIds[k]};
      }
    }
    assert freshIds[..|freshIds|] == freshIds;
  }

  // ----- the canvas -----

  datatype View = View(boards: map<string, Board>, activeKey: string)

  const START := View(map[], BoardKey(None, None))

  function BoardOf(boards: map<string, Board>, key: string): Board {
    if key in boards then boards[key] else EMPTY
  }

  function Updated(prev: Board, m: Message, boot: int): Board {
    var arrived := FreshNewIds(m.items, Ids(prev.items), boot);
    Board(m.items, m.cursor, set id | id in prev.unread + (set f <- arrived)
      && Unread(prev.unread, Ids(m.items), arrived, m.cursor, id))
  }

  function Applied(v: View, m: Message, boot: int): View {
    if m.scope != "lane" then v
    else
      var key := BoardKey(m.repo, m.lane);
      v.(boards := v.boards[key := Updated(BoardOf(v.boards, key), m, boot)])
  }

  function CursorSet(v: View, id: string): View {
    var b := BoardOf(v.boards, v.activeKey);
    if id !in Ids(b.items) then v
    else v.(boards := v.boards[v.activeKey := b.(cursor := Some(id), unread := b.unread - {id})])
  }

  class Canvas {
    var activeKey: string
    var boards: map<string, Board>
    const bootTs: int

    constructor (now: int)
      ensures Shown() == START && bootTs == now
    {
      activeKey := BoardKey(None, None);
      boards := map[];
      bootTs := now;
    }

    function Shown(): View
      reads this
    {
      View(boards, activeKey)
    }

    method SetActiveBoard(repo: Option<string>, lane: Option<string>)
      modifies `activeKey
      ensures Shown() == old(Shown()).(activeKey := BoardKey(repo, lane))
    {
      activeKey := BoardKey(repo, lane);
    }

    method SetCursor(id: string)
      modifies `boards
      ensures Shown() == CursorSet(old(Shown()), id)
    {
      var b := BoardOf(boards, activeKey);
      if !(exists i <- b.items :: i.id == id) {
        return;
      }
      b := b.(cursor := Some(id), unread := b.unread - {id});
      boards := boards[activeKey := b];
    }

    method ApplyBoardUpdated(m: Message)
      modifies `boards
      ensures Shown() == Applied(old(Shown()), m, bootTs)
    {
      if m.scope != "lane" {
        return;
      }
      var key := BoardKey(m.repo, m.lane);
      var prev := BoardOf(boards, key);
      var prevIds := Ids(prev.items);
      var freshIds := FreshNewIds(m.items, prevIds, bootTs);
      var unread := ComputeUnread(prev.unread, Ids(m.items), freshIds, m.cursor);
      assert unread == Updated(prev, m, bootTs).unread;
      boards := boards[key := Board(m.items, m.cursor, unread)];
    }
  }

  /** A listed item becomes the cursor and is unread no more; one that is not listed changes nothing. */
  lemma ListedItemBecomesTheCursor(v: View, id: string)
    ensures var n, b := CursorSet(v, id), BoardOf(v.boards, v.activeKey);
      && n.activeKey == v.activeKey
      && if exists item <- b.items :: item.id == id then
           var c := BoardOf(n.boards, v.activeKey);
           && c.items == b.items && c.cursor == Some(id) && id !in c.unread && c.unread + {id} == b.unread + {id}
         else n == v
    ensures forall key :: key != v.activeKey ==> BoardOf(CursorSet(v, id).boards, key) == BoardOf(v.boards, key)
  {
  }

  /** An update of a lane shows the message's items and cursor on its board; one of any other scope shows nothing. */
  lemma UpdateIsShown(v: View, m: Message, boot: int)
    ensures var n, b := Applied(v, m, boot), BoardOf(Applied(v, m, boot).boards, BoardKey(m.repo, m.lane));
      && n.activeKey == v.activeKey
      && if m.scope == "lane" then b.items == m.items && b.cursor == m.cursor else n == v
  {
  }

  /** An update for one pair leaves every other board as it is. */
  lemma UpdatesStayApart(v: View, m: Message, repo: Option<string>, lane: Option<string>, boot: int)
    requires NulFree(RepoName(repo)) && NulFree(RepoName(m.repo))
    requires RepoName(repo) != RepoName(m.repo) || LaneName(lane) != LaneName(m.lane)
    ensures BoardOf(Applied(v, m, boot).boards, BoardKey(repo, lane)) == BoardOf(v.boards, BoardKey(repo, lane))
  {
    KeyIsIdentity(repo, lane, m.repo, m.lane);
  }

  // ----- runs -----

  datatype Action = Update(message: Message) | Look(id: string) | Switch(repo: Option<string>, lane: Option<string>)

  function Acted(v: View, a: Action, boot: int): View {
    match a
    case Update(message) => Applied(v, message, boot)
    case Look(id) => CursorSet(v, id)
    case Switch(repo, lane) => v.(activeKey := BoardKey(repo, lane))
  }

  function After(acts: seq<Action>, boot: int, n: nat): View
    requires n <= |acts|
  {
    if n == 0 then START else Acted(After(acts, boot, n - 1), acts[n - 1], boot)
  }

  function At(acts: seq<Action>, boot: int, n: nat, key: string): Board
    requires n <= |acts|
  {
    BoardOf(After(acts, boot, n).boards, key)
  }

  /** The `n`-th action brings the id onto the board, as a live arrival. */
  predicate Arrives(acts: seq<Action>, boot: int, n: nat, key: string, id: string)
    requires n < |acts|
  {
    && acts[n].Update? && acts[n].message.scope == "lane" && BoardKey(acts[n].message.repo, acts[n].message.lane) == key
    && id !in Ids(At(acts, boot, n, key).items) && Born(acts[n].message.items, id, boot)
  }

  predicate ListedUnseen(b: Board, id: string) {
    id in Ids(b.items) && b.cursor != Some(id)
  }

  /** It arrived live by the `k`-th action, and has been listed and not looked at ever since. */
  predicate UnseenSince(acts: seq<Action>, boot: int, k: nat, n: nat, key: string, id: string)
    requires k < n <= |acts|
  {
    Arrives(acts, boot, k, key, id) && forall m :: k < m <= n ==> ListedUnseen(At(acts, boot, m, key), id)
  }

  predicate Sound(b: Board) {
    forall id <- b.unread :: ListedUnseen(b, id)
  }

  lemma FreshIsListed(items: seq<Item>, id: string, boot: int)
    requires Born(items, id, boot)
    ensures id in Ids(items)
  {
    var i :| i in items && i.id == id && i.born.Some? && i.born.value >= boot;
    assert i.id in Ids(items);
  }

  lemma UpdatedUnread(prev: Board, m: Message, boot: int, id: string)
    requires Sound(prev)
    ensures id in Updated(prev, m, boot).unread <==>
      ListedUnseen(Updated(prev, m, boot), id)
        && (id in prev.unread || (id !in Ids(prev.items) && Born(m.items, id, boot)))
  {
    if Born(m.items, id, boot) {
      FreshIsListed(m.items, id, boot);
    }
  }

  lemma {:induction false} AlwaysSound(acts: seq<Action>, boot: int, n: nat, key: string)
    requires n <= |acts|
    ensures Sound(At(acts, boot, n, key))
  {
    if n == 0 {
    } else {
      AlwaysSound(acts, boot, n - 1, key);
      var prev, b := At(acts, boot, n - 1, key), At(acts, boot, n, key);
      if acts[n - 1].Update? {
        forall id | id in b.unread ensures ListedUnseen(b, id) {
          UpdatedUnread(prev, acts[n - 1].message, boot, id);
        }
      }
    }
  }

  /** One action decides the marks from the marks before it. */
  lemma UnreadStep(acts: seq<Action>, boot: int, n: nat, key: string, id: string)
    requires n < |acts|
    ensures id in At(acts, boot, n + 1, key).unread <==>
      ListedUnseen(At(acts, boot, n + 1, key), id)
        && (id in At(acts, boot, n, key).unread || Arrives(acts, boot, n, key, id))
  {
    AlwaysSound(acts, boot, n, key);
    AlwaysSound(acts, boot, n + 1, key);
    if acts[n].Update? {
      UpdatedUnread(At(acts, boot, n, key), acts[n].message, boot, id);
    }
  }

  /** It arrived live by one of the first `n` actions, and has been listed and not looked at ever since. */
  ghost predicate UnseenArrival(acts: seq<Action>, boot: int, n: nat, key: string, id: string)
    requires n <= |acts|
  {
    exists k: nat :: k < n && UnseenSince(acts, boot, k, n, key, id)
  }

  lemma UnseenOneMore(acts: seq<Action>, boot: int, n: nat, key: string, id: string)
    requires n < |acts|
    ensures UnseenArrival(acts, boot, n + 1, key, id) <==>
      ListedUnseen(At(acts, boot, n + 1, key), id)
        && (UnseenArrival(acts, boot, n, key, id) || Arrives(acts, boot, n, key, id))
  {
    if UnseenArrival(acts, boot, n + 1, key, id) {
      var k: nat :| k < n + 1 && UnseenSince(acts, boot, k, n + 1, key, id);
      assert ListedUnseen(At(acts, boot, n + 1, key), id);
      assert k < n ==> UnseenSince(acts, boot, k, n, key, id);
    }
    if ListedUnseen(At(acts, boot, n + 1, key), id) {
      if UnseenArrival(acts, boot, n, key, id) {
        var k: nat :| k < n && UnseenSince(acts, boot, k, n, key, id);
        assert UnseenSince(acts, boot, k, n + 1, key, id);
      }
      if Arrives(acts, boot, n, key, id) {
        assert UnseenSince(acts, boot, n, n + 1, key, id);
      }
    }
  }

  /**
   After any run, an item of any board is unread exactly when it came as a live arrival, has been listed ever
   since, and has not been the cursor since.
   */
  lemma {:induction false} UnreadMeans(acts: seq<Action>, boot: int, n: nat, key: string, id: string)
    requires n <= |acts|
    ensures id in At(acts, boot, n, key).unread <==> UnseenArrival(acts, boot, n, key, id)
  {
    if n == 0 {
    } else {
      UnreadMeans(acts, boot, n - 1, key, id);
      UnreadStep(acts, boot, n - 1, key, id);
      UnseenOneMore(acts, boot, n - 1, key, id);
    }
  }
}

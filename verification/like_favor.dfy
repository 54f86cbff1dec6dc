/** The optimistic like/collect toggle (src/composables/useLikeAndFavor.ts).
    A toggle runs in two steps around the API call: `Begin` checks the user
    and the pending keys, reports the optimistic state and marks the key;
    `Settle` takes the call's result, reports the final state and clears
    the key. Each reported state is one `onSuccess(status, count)` call. */
module LikeAndFavor {
  import opened Wrappers
  import UserStore
  import opened AuthModal

  datatype Kind = Like | Collect

  /** What `onSuccess` is called with. */
  datatype Shown = Shown(status: int, count: int)

  /** The API call a toggle makes. */
  datatype Call = Cancel(kind: Kind, postId: string) | Add(kind: Kind, postId: string)

  datatype Started =
    | NeedsLogin                                // the sign-in dialog was opened instead
    | AlreadyPending                            // the same toggle is still in flight
    | Sent(optimistic: Shown, call: Call)       // shown at once, then the call is made

  /** `like_<id>` and `collect_<id>`. */
  function Key(kind: Kind, postId: string): (r: string)
    ensures kind == Like ==> |r| == |postId| + 5 && r[..5] == "like_" && r[5..] == postId
    ensures kind == Collect ==> |r| == |postId| + 8 && r[..8] == "collect_" && r[8..] == postId
  {
    match kind
    case Like => "like_" + postId
    case Collect => "collect_" + postId
  }

  /** A like never blocks a collect, and toggles of different posts never
      block each other. */
  lemma KeysDistinct(k1: Kind, p1: string, k2: Kind, p2: string)
    requires k1 != k2 || p1 != p2
    ensures Key(k1, p1) != Key(k2, p2)
  {
    if k1 != k2 {
      assert Key(k1, p1)[0] != Key(k2, p2)[0];
    } else if k1 == Like {
      assert Key(k1, p1)[5..] != Key(k2, p2)[5..];
    } else {
      assert Key(k1, p1)[8..] != Key(k2, p2)[8..];
    }
  }

  /** Status 1 becomes `(0, count - 1)`; any other status `(1, count + 1)`. */
  function Optimistic(status: int, count: int): (r: Shown)
    ensures status == 1 ==> r == Shown(0, count - 1)
    ensures status != 1 ==> r == Shown(1, count + 1)
  {
    if status == 1 then Shown(0, count - 1) else Shown(1, count + 1)
  }

  /** For a 0/1 status, toggling twice restores the original state, which is
      what a rollback shows. */
  lemma OptimisticUndone(status: int, count: int)
    requires status == 0 || status == 1
    ensures Optimistic(Optimistic(status, count).status, Optimistic(status, count).count) == Shown(status, count)
  {
  }

  class Toggler {
    const user: UserStore.Store
    const modal: ModalStore
    /** The keys of the toggles in flight. */
    var pending: set<string>

    constructor (user: UserStore.Store, modal: ModalStore)
      ensures this.user == user && this.modal == modal && pending == {}
    {
      this.user := user;
      this.modal := modal;
      pending := {};
    }

    /** The first half of `toggleLike` / `toggleCollect`. */
    method Begin(kind: Kind, postId: string, status: int, count: int) returns (r: Started)
      modifies this, modal
      ensures !user.IsLoggedIn() ==>
                r == NeedsLogin && pending == old(pending)
                && modal.visible && modal.activeTab == Login && modal.redirectPath == "/forum/post/" + postId
      ensures user.IsLoggedIn() && Key(kind, postId) in old(pending) ==>
                r == AlreadyPending && pending == old(pending) && unchanged(modal)
      ensures user.IsLoggedIn() && Key(kind, postId) !in old(pending) ==>
                r.Sent? && r.optimistic == Optimistic(status, count)
                && r.call == (if status == 1 then Cancel(kind, postId) else Add(kind, postId))
                && pending == old(pending) + {Key(kind, postId)} && unchanged(modal)
    {
      if !user.IsLoggedIn() {
        modal.Open(Some(Login), Some("/forum/post/" + postId));
        return NeedsLogin;
      }
      var key := Key(kind, postId);
      if key in pending {
        return AlreadyPending;
      }
      var optimistic := Optimistic(status, count);
      pending := pending + {key};
      var call := if status == 1 then Cancel(kind, postId) else Add(kind, postId);
      return Sent(optimistic, call);
    }

    /** The second half: the call's answer (`None` when it threw) or a
        rollback to the state before the toggle; the key is cleared either way. */
    method Settle(kind: Kind, postId: string, status: int, count: int, answer: Option<Shown>) returns (shown: Shown)
      modifies this
      ensures pending == old(pending) - {Key(kind, postId)}
      ensures answer.Some? ==> shown == answer.value
      ensures answer.None? ==> shown == Shown(status, count)
    {
      pending := pending - {Key(kind, postId)};
      shown := answer.GetOr(Shown(status, count));
    }

    /** The legacy `likePost`: a like toggle from status 0, so it always
        likes and never cancels. */
    method LikePost(postId: string, count: int) returns (r: Started)
      modifies this, modal
      ensures r.Sent? ==> r.call == Add(Like, postId) && r.optimistic == Shown(1, count + 1)
      ensures r.Sent? <==> user.IsLoggedIn() && Key(Like, postId) !in old(pending)
    {
      r := Begin(Like, postId, 0, count);
    }

    /** The legacy `collectPost`, likewise. */
    method CollectPost(postId: string, count: int) returns (r: Started)
      modifies this, modal
      ensures r.Sent? ==> r.call == Add(Collect, postId) && r.optimistic == Shown(1, count + 1)
      ensures r.Sent? <==> user.IsLoggedIn() && Key(Collect, postId) !in old(pending)
    {
      r := Begin(Collect, postId, 0, count);
    }
  }
}

/** The user/post endpoints: the request each builder produces, the cache
    options of the post list, and the optimistic update `createPost` applies
    to the cached post list of the post's user before the request settles. */
module UsersApi {
  import opened Js

  /** What a `query` builder returns: a bare URL (a GET request) or a request object. */
  datatype QueryArg = Url(url: string) | Request(url: string, httpMethod: string, body: Record)

  /** A cache tag: a type, optionally narrowed to one id. */
  datatype Tag = Tag(tagType: string, id: Option<Value>)

  const UserPostsPrefix: string := "/posts?userId="

  /** `getUsers.query`. */
  function GetUsersQuery(): QueryArg
  {
    Url("/users")
  }

  /** `getUsers.providesTags`. */
  function GetUsersTags(): seq<Tag>
  {
    [Tag("Users", None)]
  }

  /** `getUserPosts.query`. */
  function GetUserPostsQuery(userId: Value): QueryArg
  {
    Url(UserPostsPrefix + ToJsString(userId))
  }

  /** `getUserPosts.keepUnusedDataFor`, in seconds. */
  const GetUserPostsKeepUnusedDataFor: nat := 60 * 5

  /** `getUserPosts.providesTags`: the result and the error are not consulted. */
  function GetUserPostsTags(result: Option<seq<Record>>, error: Option<Value>, userId: Value): seq<Tag>
  {
    [Tag("Posts", Some(userId))]
  }

  /** `createPost.query`. */
  function CreatePostQuery(data: Record): QueryArg
  {
    Request("/posts", "POST", data)
  }

  /** `arg.userId`: the cache key of the list the optimistic update targets. */
  function UserIdOf(arg: Record): Value
  {
    Get(arg, "userId")
  }

  /** `{...arg, id: tempId}`: every field of `arg`, with `id` set to the temporary id. */
  function TempPost(arg: Record, tempId: int): (post: Record)
    ensures post.Keys == arg.Keys + {"id"}
    ensures post["id"] == Num(tempId)
    ensures forall k :: k in arg && k != "id" ==> post[k] == arg[k]
  {
    arg["id" := Num(tempId)]
  }

  /** Cached post lists with data, by the `userId` argument they were fetched for. */
  type PostLists = map<Value, seq<Record>>

  /** The inverse of one optimistic update: the key and the list to put back,
      or nothing when there was no cached list to patch. */
  datatype Patch = Patch(key: Value, restore: Option<seq<Record>>)

  /** The lists after `updateQueryData("getUserPosts", arg.userId, draft => draft.push(...))`. */
  function PushTemp(lists: PostLists, arg: Record, tempId: int): (r: PostLists)
    ensures r.Keys == lists.Keys
    ensures forall k :: k in lists && k != UserIdOf(arg) ==> r[k] == lists[k]
    ensures UserIdOf(arg) in lists ==>
              |r[UserIdOf(arg)]| == |lists[UserIdOf(arg)]| + 1
              && r[UserIdOf(arg)][..|lists[UserIdOf(arg)]|] == lists[UserIdOf(arg)]
              && r[UserIdOf(arg)][|lists[UserIdOf(arg)]|] == TempPost(arg, tempId)
    ensures UserIdOf(arg) !in lists ==> r == lists
  {
    var key := UserIdOf(arg);
    if key in lists then lists[key := lists[key] + [TempPost(arg, tempId)]] else lists
  }

  /** The inverse recorded for an update of `key` on `lists`. */
  function InverseOf(lists: PostLists, key: Value): Patch
  {
    Patch(key, if key in lists then Some(lists[key]) else None)
  }

  /** `patch.undo()` on the lists. */
  function UndoPatch(lists: PostLists, patch: Patch): PostLists
  {
    match patch.restore
    case Some(oldList) => lists[patch.key := oldList]
    case None => lists
  }

  /** Undoing the optimistic update gives back exactly the lists before it. */
  lemma RollbackRestores(lists: PostLists, arg: Record, tempId: int)
    ensures UndoPatch(PushTemp(lists, arg, tempId), InverseOf(lists, UserIdOf(arg))) == lists
  {
  }

  /** `getUsers` is a plain GET of `/users`; `createPost` POSTs its argument to `/posts`. */
  lemma EndpointRequests(data: Record)
    ensures GetUsersQuery().Url? && GetUsersQuery().url == "/users"
    ensures GetUsersTags() == [Tag("Users", None)]
    ensures CreatePostQuery(data).Request?
    ensures CreatePostQuery(data).url == "/posts" && CreatePostQuery(data).httpMethod == "POST"
    ensures CreatePostQuery(data).body == data
  {
  }

  /** The request `createPost` sends carries `arg` itself; the optimistic entry
      differs from it at most in `id`. */
  lemma CreatePostBodyAndTempPost(arg: Record, tempId: int)
    ensures TempPost(arg, tempId) - {"id"} == CreatePostQuery(arg).body - {"id"}
  {
  }

  /** The post-list URL names the user id so that it reads back unchanged. */
  lemma UserPostsUrlCarriesId(n: int)
    ensures GetUserPostsQuery(Num(n)).Url?
    ensures |GetUserPostsQuery(Num(n)).url| > |UserPostsPrefix|
    ensures GetUserPostsQuery(Num(n)).url[..|UserPostsPrefix|] == UserPostsPrefix
    ensures ParseInteger(GetUserPostsQuery(Num(n)).url[|UserPostsPrefix|..]) == Some(n)
  {
    var u := GetUserPostsQuery(Num(n)).url;
    assert u[|UserPostsPrefix|..] == IntegerString(n);
    IntegerRoundTrip(n);
  }

  /** Different user ids request different URLs. */
  lemma UserPostsUrlInjective(a: int, b: int)
    requires GetUserPostsQuery(Num(a)) == GetUserPostsQuery(Num(b))
    ensures a == b
  {
    UserPostsUrlCarriesId(a);
    UserPostsUrlCarriesId(b);
  }

  /** The post-list tags name the requested user and nothing else. */
  lemma UserPostsTagsNameUser(result: Option<seq<Record>>, error: Option<Value>, userId: Value)
    ensures GetUserPostsTags(result, error, userId) == GetUserPostsTags(None, None, userId)
    ensures GetUserPostsTags(result, error, userId) == [Tag("Posts", Some(userId))]
  {
  }

  /** The `getUserPosts` cache entries, updated in place by the optimistic update and its undo. */
  class PostsCache {
    var lists: PostLists

    constructor (lists: PostLists)
      ensures this.lists == lists
    {
      this.lists := lists;
    }

    /** `dispatch(updateQueryData(...))`: push the temporary post onto the
        list cached for `arg.userId`, if there is one, and return its inverse. */
    method UpdateQueryDataPush(arg: Record, tempId: int) returns (patch: Patch)
      modifies this
      ensures lists == PushTemp(old(lists), arg, tempId)
      ensures patch == InverseOf(old(lists), UserIdOf(arg))
    {
      var key := UserIdOf(arg);
      if key in lists {
        var draft := lists[key];
        patch := Patch(key, Some(draft));
        draft := draft + [TempPost(arg, tempId)];
        lists := lists[key := draft];
      } else {
        patch := Patch(key, None);
      }
    }

    method Undo(patch: Patch)
      modifies this
      ensures lists == UndoPatch(old(lists), patch)
    {
      if patch.restore.Some? {
        lists := lists[patch.key := patch.restore.value];
      }
    }

    /** `createPost.onQueryStarted`, given how the request settled. */
    method OnQueryStarted(arg: Record, tempId: int, fulfilled: bool)
      modifies this
      ensures fulfilled ==> lists == PushTemp(old(lists), arg, tempId)
      ensures !fulfilled ==> lists == old(lists)
    {
      var patch := UpdateQueryDataPush(arg, tempId);
      if !fulfilled {
        Undo(patch);
        RollbackRestores(old(lists), arg, tempId);
      }
    }
  }
}

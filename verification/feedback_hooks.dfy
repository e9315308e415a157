/**
 * The client hooks for feedback: the URL `useFeedbackList` fetches, and the
 * cache keys of `useFeedbackDetail` and `useFeedbackComments` (no key, no
 * fetch). The `application/x-www-form-urlencoded` serializer behind
 * `URLSearchParams.toString()` is a parameter.
 */
module FeedbackHooks {
  import opened Common

  /** A `URLSearchParams` object: its name/value pairs in insertion order. */
  class SearchParams {
    var entries: seq<(string, string)>

    constructor ()
      ensures entries == []
    {
      entries := [];
    }

    /** `params.append(name, value)`. */
    method Append(name: string, value: string)
      modifies this
      ensures entries == old(entries) + [(name, value)]
    {
      entries := entries + [(name, value)];
    }

    /** `[...params].length`. */
    function Size(): (n: nat)
      reads this
      ensures n == |entries|
      ensures n == 0 <==> entries == []
    {
      |entries|
    }
  }

  const LIST_URL: string := "/api/feedback"

  /** The parameters the list URL carries: the truthy filters, named, in the order category, status, search. */
  function ListParams(category: Option<string>, status: Option<string>, search: Option<string>): seq<(string, string)> {
    (if Truthy(category) then [("category", category.value)] else []) +
    (if Truthy(status) then [("status", status.value)] else []) +
    (if Truthy(search) then [("search", search.value)] else [])
  }

  /** `useFeedbackList`'s URL: the bare list URL, and a query string only when some filter is set. */
  method FeedbackListUrl(category: Option<string>, status: Option<string>, search: Option<string>,
                         serialize: seq<(string, string)> -> string) returns (url: string)
    ensures var ps := ListParams(category, status, search);
      url == if ps == [] then LIST_URL else LIST_URL + "?" + serialize(ps)
  {
    url := LIST_URL;
    var params := new SearchParams();
    if Truthy(category) {
      params.Append("category", category.value);
    }
    if Truthy(status) {
      params.Append("status", status.value);
    }
    if Truthy(search) {
      params.Append("search", search.value);
    }
    assert params.entries == ListParams(category, status, search);
    if params.Size() != 0 {
      url := url + "?" + serialize(params.entries);
    }
  }

  /** Names of a parameter list, in order. */
  function Names(ps: seq<(string, string)>): (ns: seq<string>)
    ensures |ns| == |ps|
    ensures forall i :: 0 <= i < |ps| ==> ns[i] == ps[i].0
  {
    if ps == [] then [] else [ps[0].0] + Names(ps[1..])
  }

  /**
   * A filter becomes a parameter exactly when it is truthy, carrying its
   * value; names keep the fixed order and none is repeated.
   */
  lemma ListParamsShape(category: Option<string>, status: Option<string>, search: Option<string>)
    ensures var ps := ListParams(category, status, search);
      (("category", OrEmpty(category)) in ps <==> Truthy(category)) &&
      (("status", OrEmpty(status)) in ps <==> Truthy(status)) &&
      (("search", OrEmpty(search)) in ps <==> Truthy(search)) &&
      IsSubsequence(Names(ps), ["category", "status", "search"]) &&
      |ps| <= 3
  {
    var ps := ListParams(category, status, search);
    var all := ["category", "status", "search"];
    if Truthy(category) {
      assert Names(ps)[0] == all[0];
      assert all[1..] == ["status", "search"];
      assert Names(ps)[1..] == Names(ListParams(None, status, search));
      SubsequenceTail(status, search);
    } else {
      assert ps == ListParams(None, status, search);
      SubsequenceTail(status, search);
      assert IsSubsequence(Names(ps), all[1..]);
    }
  }

  /** The names left after `category` fit in order into `status`, `search`. */
  lemma SubsequenceTail(status: Option<string>, search: Option<string>)
    ensures IsSubsequence(Names(ListParams(None, status, search)), ["status", "search"])
  {
    var ps := ListParams(None, status, search);
    if Truthy(status) && Truthy(search) {
      assert Names(ps) == ["status", "search"];
    } else if Truthy(status) {
      assert Names(ps) == ["status"];
    } else if Truthy(search) {
      assert Names(ps) == ["search"];
      assert ["status", "search"][1..] == ["search"];
    } else {
      assert Names(ps) == [];
    }
  }

  /** A '?' follows the list URL exactly when some filter is truthy; without filters the URL is the bare list URL. */
  lemma QueryOnlyWithFilters(category: Option<string>, status: Option<string>, search: Option<string>)
    ensures ListParams(category, status, search) == [] <==> !Truthy(category) && !Truthy(status) && !Truthy(search)
  {
  }

  /** `useFeedbackDetail`'s key: none without an id, else the feedback item's URL. */
  function DetailKey(id: Option<string>): (k: Option<string>)
    ensures k.None? <==> !Truthy(id)
    ensures k.Some? ==> StartsWith(k.value, "/api/feedback/") && k.value[|"/api/feedback/"|..] == id.value
  {
    if Truthy(id) then Some("/api/feedback/" + id.value) else None
  }

  /** `useFeedbackComments`'s key: none without an id, else the item's comments URL. */
  function CommentsKey(id: Option<string>): (k: Option<string>)
    ensures k.None? <==> !Truthy(id)
    ensures k.Some? ==> k.value == DetailKey(id).value + "/comments"
  {
    if Truthy(id) then Some("/api/feedback/" + id.value + "/comments") else None
  }

  /** Different ids give different keys, so two items never share a cache entry. */
  lemma KeysAreInjective(a: Option<string>, b: Option<string>)
    requires Truthy(a) && Truthy(b) && a.value != b.value
    ensures DetailKey(a) != DetailKey(b)
    ensures CommentsKey(a) != CommentsKey(b)
  {
    var p := "/api/feedback/";
    var ka, kb := DetailKey(a).value, DetailKey(b).value;
    assert ka[|p|..] != kb[|p|..];
    var s := "/comments";
    assert (ka + s)[..|ka|] == ka && (kb + s)[..|kb|] == kb;
    if |ka| == |kb| {
      assert CommentsKey(a).value[..|ka|] != CommentsKey(b).value[..|kb|];
    } else {
      assert |CommentsKey(a).value| != |CommentsKey(b).value|;
    }
  }
}

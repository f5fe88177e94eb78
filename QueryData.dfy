/** The query hooks' response handling: unwrapping the server envelope and
    flattening paged lists. Responses are JSON values. */
module QueryData {
  import opened Wrappers
  import opened Json
  import ConversationList

  /** `useQueryData`'s `data`: the response body, or its `data` member when
      the body is an object that has one. The envelope is removed once. */
  function Unwrap(response: Json): (data: Json)
    ensures var body := Get(response, "data"); HasKey(body, "data") ==> data == Get(body, "data")
    ensures var body := Get(response, "data"); !HasKey(body, "data") ==> data == body
  {
    var axiosData := Get(response, "data");
    if Truthy(axiosData) && (axiosData.JObj? || axiosData.JArr?) && HasKey(axiosData, "data") then Get(axiosData, "data")
    else axiosData
  }

  /** The conversation list's page reader unwraps the same way. */
  lemma UnwrapAgreesWithConversationList(response: Json)
    ensures Unwrap(response) == ConversationList.BusinessData(response)
  {
  }

  /** Unwrapping is not repeated: a body wrapped twice keeps its inner envelope. */
  lemma UnwrapIsSingleLevel(inner: Json)
    ensures Unwrap(JObj([("data", JObj([("data", JObj([("data", inner)]))]))])) == JObj([("data", inner)])
  {
    var twice := JObj([("data", JObj([("data", inner)]))]);
    assert twice.fields[0].0 == "data";
    assert Get(JObj([("data", twice)]), "data") == twice;
  }

  /** The items one page contributes to the flattened list: its `list`
      member when it has one (nothing when that is falsy; `flatMap` spreads
      an array and keeps any other value as one item), the body itself when
      it is an array, and nothing otherwise. */
  function PageItems(page: Json): (items: seq<Json>)
    ensures var b := Unwrap(page); HasKey(b, "list") && Get(b, "list").JArr? ==> items == Get(b, "list").items
    ensures var b := Unwrap(page); HasKey(b, "list") && !Truthy(Get(b, "list")) ==> items == []
    ensures var b := Unwrap(page); HasKey(b, "list") && Truthy(Get(b, "list")) && !Get(b, "list").JArr? ==> items == [Get(b, "list")]
    ensures var b := Unwrap(page); !HasKey(b, "list") && b.JArr? ==> items == b.items
    ensures var b := Unwrap(page); !HasKey(b, "list") && !b.JArr? ==> items == []
  {
    var businessData := Unwrap(page);
    if Truthy(businessData) && businessData.JObj? && HasKey(businessData, "list") then
      var list := Get(businessData, "list");
      if !Truthy(list) then []
      else if list.JArr? then list.items
      else [list]
    else if businessData.JArr? then businessData.items
    else []
  }

  /** `pages.flatMap(...)`, page by page in order. */
  function FlattenPages(pages: seq<Json>): (list: seq<Json>)
    ensures pages == [] ==> list == []
    ensures |pages| == 1 ==> list == PageItems(pages[0])
  {
    if pages == [] then [] else PageItems(pages[0]) + FlattenPages(pages[1..])
  }

  /** `useInfiniteQueryData`'s `list`: no data or no pages gives []. */
  function InfiniteList(pages: Option<seq<Json>>): (list: seq<Json>)
    ensures pages.None? ==> list == []
    ensures pages.Some? ==> list == FlattenPages(pages.value)
  {
    match pages
    case None => []
    case Some(ps) => FlattenPages(ps)
  }

  /** Loading more pages only appends: the list of a longer run of pages
      starts with the list of the earlier ones and continues with the new. */
  lemma {:induction false} FlattenAppend(p1: seq<Json>, p2: seq<Json>)
    ensures FlattenPages(p1 + p2) == FlattenPages(p1) + FlattenPages(p2)
  {
    if p1 != [] {
      assert (p1 + p2)[1..] == p1[1..] + p2;
      FlattenAppend(p1[1..], p2);
    } else {
      assert p1 + p2 == p2;
    }
  }
}

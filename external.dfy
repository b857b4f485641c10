/** The external aggregator: the posts fetched from a third-party endpoint
    are reshaped into records of this API's own shape. The fetch itself is
    network I/O; its outcome is a parameter here. */
module External {
  import opened JsValues
  import opened Api

  /** A third-party post as decoded from the fetched JSON. */
  datatype Post = Post(id: int, title: string, body: string)

  const ExternalSource := "external-api"
  const ContentLength := 100

  function Min(a: int, b: int): int {
    if a <= b then a else b
  }

  /** `body.substring(0, 100) + '...'`: at most the first 100 characters of
      the body, always followed by an ellipsis. */
  function Shorten(body: string): (c: string)
    ensures |c| == Min(ContentLength, |body|) + 3
    ensures c[|c| - 3..] == "..."
    ensures c[..|c| - 3] == body[..|c| - 3]
    ensures |body| <= ContentLength ==> c == body + "..."
  {
    body[..Min(ContentLength, |body|)] + "..."
  }

  /** The reshaping of one post. */
  function Reshape(p: Post): ExternalRecord {
    ExternalRecord(p.id, p.title, Shorten(p.body), ExternalSource)
  }

  /** `externalData.map(post => ...)`: one record per post, in order. */
  function ReshapeAll(posts: seq<Post>): (r: seq<ExternalRecord>)
    ensures |r| == |posts|
    ensures forall i :: 0 <= i < |posts| ==>
      r[i].id == posts[i].id && r[i].title == posts[i].title &&
      r[i].content == Shorten(posts[i].body) && r[i].source == ExternalSource
  {
    if posts == [] then [] else [Reshape(posts[0])] + ReshapeAll(posts[1..])
  }

  /** The map works post by post: reshaping two batches and joining them is
      reshaping the joined batch. */
  lemma {:induction false} ReshapeAllConcat(a: seq<Post>, b: seq<Post>)
    ensures ReshapeAll(a + b) == ReshapeAll(a) + ReshapeAll(b)
  {
    if a == [] {
      assert a + b == b;
    } else {
      assert (a + b)[0] == a[0];
      assert (a + b)[1..] == a[1..] + b;
      ReshapeAllConcat(a[1..], b);
      assert ReshapeAll(a + b) == [Reshape(a[0])] + ReshapeAll(a[1..] + b);
    }
  }

  /** `getExternalData` after the fetch: a failed fetch or decode (`None`)
      answers 500 with a generic error; otherwise 200 with the reshaped posts. */
  function ExternalData(fetched: Option<seq<Post>>): (r: Response)
    ensures fetched.None? ==> r == Response(500, Failure(ExternalError))
    ensures fetched.Some? ==>
      r.status == 200 && r.body.ExternalList? && r.body.message == ExternalMessage &&
      |r.body.records| == |fetched.value|
    ensures fetched.Some? ==> forall i :: 0 <= i < |fetched.value| ==>
      r.body.records[i].id == fetched.value[i].id &&
      r.body.records[i].title == fetched.value[i].title &&
      r.body.records[i].source == ExternalSource &&
      r.body.records[i].content == Shorten(fetched.value[i].body)
  {
    match fetched
    case None => Response(500, Failure(ExternalError))
    case Some(posts) => Response(200, ExternalList(ReshapeAll(posts), ExternalMessage))
  }
}

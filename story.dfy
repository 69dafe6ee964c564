/** Values shared by the carousel, the uploader and the page shell. */
module StoryModel {

  datatype Option<T> = None | Some(value: T)

  datatype MediaKind = Image | Video

  /** One story as the page keeps it. The creation timestamp is not modelled. */
  datatype Story = Story(
    id: string,
    url: string,
    kind: MediaKind,
    duration: int,   // milliseconds
    userName: string,
    userAvatar: string)

  /** `s.startsWith(prefix)` */
  predicate StartsWith(s: string, prefix: string)
  {
    |prefix| <= |s| && s[..|prefix|] == prefix
  }

  /** Every story can be played: its display duration is positive. */
  predicate PositiveDurations(stories: seq<Story>)
  {
    forall i :: 0 <= i < |stories| ==> stories[i].duration > 0
  }

  /** A prefix of `a` is a prefix of `a + b`; a prefix that reaches past `a` decides on `b`. */
  lemma {:induction false} StartsWithConcat(a: string, b: string, prefix: string)
    ensures |prefix| <= |a| ==> (StartsWith(a + b, prefix) <==> StartsWith(a, prefix))
    ensures |a| <= |prefix| ==>
      (StartsWith(a + b, prefix) <==> StartsWith(prefix, a) && StartsWith(b, prefix[|a|..]))
  {
    if |prefix| <= |a| {
      assert (a + b)[..|prefix|] == a[..|prefix|];
    }
    if |a| <= |prefix| {
      if |prefix| <= |a + b| {
        var p := prefix[|a|..];
        assert (a + b)[..|prefix|] == a + b[..|p|];
        if StartsWith(prefix, a) && StartsWith(b, p) {
          assert prefix == prefix[..|a|] + p;
        }
        if StartsWith(a + b, prefix) {
          assert prefix[..|a|] == (a + b)[..|a|] == a;
          assert p == (a + b)[|a|..|prefix|] == b[..|p|];
        }
      }
    }
  }
}

/**
 * `getYouTubeVideoId`: the video id a frame's `source` URL names.
 *
 * Parsing the URL string is the browser's `new URL(...)`; the model takes
 * its outcome as input: `None` when the constructor throws, otherwise the
 * host name, the path name and the query's key/value pairs in order.
 */
module YouTubeUrl {
  import opened Wrappers

  datatype Url = Url(hostname: string, pathname: string, query: seq<(string, string)>)

  /** The short-link host, whose path is the id. */
  const ShortHost: string := "youtu.be"

  /** `URLSearchParams.get(key)`: the value of the first pair with that key,
      or null when no pair has it. */
  function QueryGet(query: seq<(string, string)>, key: string): (r: Option<string>)
    ensures r.None? <==> forall i :: 0 <= i < |query| ==> query[i].0 != key
    ensures r.Some? ==> exists i :: 0 <= i < |query| && query[i] == (key, r.value) &&
                                    forall j :: 0 <= j < i ==> query[j].0 != key
  {
    if query == [] then None
    else if query[0].0 == key then Some(query[0].1)
    else QueryGet(query[1..], key)
  }

  /** `s.slice(1)`: the string without its first character. */
  function DropFirst(s: string): (r: string)
    ensures |s| > 0 ==> r == s[1..]
    ensures |s| == 0 ==> r == ""
  {
    if |s| == 0 then "" else s[1..]
  }

  /** The id, or null when it is missing or empty or the URL does not parse. */
  function VideoId(url: Option<Url>): (r: Option<string>)
    ensures r.Some? ==> r.value != ""
    ensures url.None? ==> r.None?
    ensures url.Some? && url.value.hostname == ShortHost ==>
              r == (if |url.value.pathname| > 1 then Some(url.value.pathname[1..]) else None)
    ensures url.Some? && url.value.hostname != ShortHost ==>
              r == (if QueryGet(url.value.query, "v") == Some("") then None
                    else QueryGet(url.value.query, "v"))
  {
    match url
    case None => None
    case Some(u) =>
      var id := if u.hostname == ShortHost then Some(DropFirst(u.pathname)) else QueryGet(u.query, "v");
      if id.None? || id.value == "" then None else id
  }

  /** A short link `https://youtu.be/<id>` yields `<id>`, whatever its query. */
  lemma ShortLinkId(id: string, query: seq<(string, string)>)
    requires id != ""
    ensures VideoId(Some(Url(ShortHost, "/" + id, query))) == Some(id)
  {
    assert ("/" + id)[1..] == id;
  }

  /** A watch link yields the value of its first `v` parameter, however many
      other parameters come before or after it. */
  lemma {:induction false} WatchLinkId(host: string, path: string, before: seq<(string, string)>,
                                       id: string, after: seq<(string, string)>)
    requires host != ShortHost && id != ""
    requires forall i :: 0 <= i < |before| ==> before[i].0 != "v"
    ensures VideoId(Some(Url(host, path, before + [("v", id)] + after))) == Some(id)
  {
    QueryGetAfter(before, "v", [("v", id)] + after);
    assert before + [("v", id)] + after == before + ([("v", id)] + after);
  }

  /** Pairs with other keys in front do not change what `get` finds. */
  lemma {:induction false} QueryGetAfter(before: seq<(string, string)>, key: string,
                                         rest: seq<(string, string)>)
    requires forall i :: 0 <= i < |before| ==> before[i].0 != key
    ensures QueryGet(before + rest, key) == QueryGet(rest, key)
  {
    if before != [] {
      var all := before + rest;
      assert all[0] == before[0] && before[0].0 != key;
      assert all[1..] == before[1..] + rest;
      QueryGetAfter(before[1..], key, rest);
    } else {
      assert before + rest == rest;
    }
  }

  /** Any other host without a `v` parameter yields null. */
  lemma NoVideoParameter(u: Url)
    requires u.hostname != ShortHost
    requires forall i :: 0 <= i < |u.query| ==> u.query[i].0 != "v"
    ensures VideoId(Some(u)) == None
  {
  }
}

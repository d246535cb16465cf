/** How the gateway decides which upgrade requests belong to the Yjs document
    handler, and how it derives a document name from the request target. */
module Routing {

  /** The exact pathname socket.io's engine serves; its upgrades are left to socket.io. */
  const SOCKET_IO_PATH: string := "/socket.io/"

  /** The prefix PeerJS serves under; its upgrades are left to PeerJS. */
  const PEERJS_PREFIX: string := "/peerjs"

  /** The separator between a request target's path and its query. */
  const QUERY_SEPARATOR: char := '?'

  /** JavaScript's `s.startsWith(prefix)`. */
  predicate StartsWith(s: string, prefix: string) {
    |prefix| <= |s| && s[..|prefix|] == prefix
  }

  /** JavaScript's `s.slice(1)`: the string without its first character
      (the empty string stays empty). */
  function DropFirst(s: string): string {
    if |s| == 0 then s else s[1..]
  }

  /** JavaScript's `s.split(sep)` for a one-character separator: the pieces
      between the separators, in order. There is always at least one piece,
      none contains the separator, and the first piece is the longest prefix
      of `s` without the separator. */
  function Split(s: string, sep: char): (parts: seq<string>)
    ensures |parts| >= 1
    ensures forall i :: 0 <= i < |parts| ==> sep !in parts[i]
    ensures StartsWith(s, parts[0])
    ensures |parts[0]| < |s| ==> s[|parts[0]|] == sep
    decreases |s|
  {
    if |s| == 0 then [""]
    else
      var rest := Split(s[1..], sep);
      if s[0] == sep then [""] + rest
      else [[s[0]] + rest[0]] + rest[1..]
  }

  /** JavaScript's `parts.join(sep)` for a one-character separator. */
  function Join(parts: seq<string>, sep: char): string
    requires |parts| >= 1
    decreases |parts|
  {
    if |parts| == 1 then parts[0] else parts[0] + [sep] + Join(parts[1..], sep)
  }

  /** Splitting loses nothing: joining the pieces back gives the original string. */
  lemma {:induction false} JoinSplit(s: string, sep: char)
    ensures Join(Split(s, sep), sep) == s
    decreases |s|
  {
    if |s| > 0 {
      var rest := Split(s[1..], sep);
      JoinSplit(s[1..], sep);
      if s[0] == sep {
        assert ([""] + rest)[1..] == rest;
      } else if |rest| > 1 {
        assert Join(rest, sep) == rest[0] + [sep] + Join(rest[1..], sep);
        assert ([[s[0]] + rest[0]] + rest[1..])[1..] == rest[1..];
      }
    }
  }

  /** The document name of an accepted Yjs connection: the request target with
      its first character dropped, cut at the first `?`. It is the longest
      `?`-free prefix of the target's tail. */
  function DocName(url: string): (name: string)
    ensures QUERY_SEPARATOR !in name
    ensures StartsWith(DropFirst(url), name)
    ensures |name| < |DropFirst(url)| ==> DropFirst(url)[|name|] == QUERY_SEPARATOR
  {
    Split(DropFirst(url), QUERY_SEPARATOR)[0]
  }

  /** The three properties of DocName's contract determine the name: any other
      string with them is the same name. */
  lemma DocNameUnique(url: string, other: string)
    requires QUERY_SEPARATOR !in other
    requires StartsWith(DropFirst(url), other)
    requires |other| < |DropFirst(url)| ==> DropFirst(url)[|other|] == QUERY_SEPARATOR
    ensures other == DocName(url)
  {
    var tail, name := DropFirst(url), DocName(url);
    assert name == tail[..|name|] && other == tail[..|other|];
  }

  /** Sample targets: the root and a bare query give the empty name, and a
      query is cut off. */
  lemma DocNameSamples()
    ensures DocName("/") == ""
    ensures DocName("/?room=1") == ""
    ensures DocName("/doc-A?x=1") == "doc-A"
  {
    assert DropFirst("/") == "";
    assert DropFirst("/?room=1")[0] == QUERY_SEPARATOR;
    var target := "/doc-A?x=1";
    assert DropFirst(target) == "doc-A?x=1";
    assert DropFirst(target)[..5] == "doc-A" && DropFirst(target)[5] == QUERY_SEPARATOR;
    DocNameUnique(target, "doc-A");
  }

  /** The upgrade filter: an upgrade goes to the Yjs handler unless its
      pathname is exactly socket.io's path or starts with the PeerJS prefix. */
  predicate HandledByYjs(pathname: string) {
    pathname != SOCKET_IO_PATH && !StartsWith(pathname, PEERJS_PREFIX)
  }

  /** Which upgrades are reserved: socket.io's own path, and every path under
      PeerJS's prefix; a path that merely extends socket.io's path, and the
      root, go to the Yjs handler. */
  lemma ReservedUpgrades(suffix: string)
    ensures !HandledByYjs(SOCKET_IO_PATH)
    ensures !HandledByYjs(PEERJS_PREFIX + suffix)
    ensures suffix != "" ==> HandledByYjs(SOCKET_IO_PATH + suffix)
    ensures HandledByYjs("/")
  {
    assert (PEERJS_PREFIX + suffix)[..|PEERJS_PREFIX|] == PEERJS_PREFIX;
    if suffix != "" {
      assert (SOCKET_IO_PATH + suffix)[1] != PEERJS_PREFIX[1];
    }
  }

  /** For an origin-form target whose pathname is its text before the first
      `?` (no fragment, escapes or dot segments to normalise), the pathname is
      the document name behind a slash; so a document handled by Yjs is never
      named after socket.io's path nor placed under PeerJS's prefix. */
  lemma RoutedDocNameNotReserved(url: string)
    requires |url| > 0 && url[0] == '/'
    requires HandledByYjs(Split(url, QUERY_SEPARATOR)[0])
    ensures Split(url, QUERY_SEPARATOR)[0] == "/" + DocName(url)
    ensures DocName(url) != "socket.io/"
    ensures !StartsWith(DocName(url), "peerjs")
  {
    var name := Split(url[1..], QUERY_SEPARATOR)[0];
    SplitFirstPiece(url, QUERY_SEPARATOR);
    assert DocName(url) == name;
    UnderSlashNotReserved(name);
  }

  /** A name put behind a slash passes the filter only if it is neither
      socket.io's path nor under PeerJS's prefix without their slash. */
  lemma UnderSlashNotReserved(name: string)
    requires HandledByYjs("/" + name)
    ensures name != "socket.io/"
    ensures !StartsWith(name, "peerjs")
  {
  }

  /** A leading character other than the separator stays in the first piece. */
  lemma SplitFirstPiece(s: string, sep: char)
    requires |s| > 0 && s[0] != sep
    ensures Split(s, sep)[0] == [s[0]] + Split(s[1..], sep)[0]
  {
  }
}

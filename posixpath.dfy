/** `os.path.join` with the POSIX rules and the one separator '/': an
    absolute piece restarts the path, and a separator is inserted only
    when the path so far is non-empty and does not already end in one. */
module PosixPath {
  import opened PyText

  /** One step of the join: appending piece `b` to `path`. */
  function JoinStep(path: string, b: string): string
  {
    if StartsWith(b, "/") then b
    else if path == "" || EndsWith(path, "/") then path + b
    else path + "/" + b
  }

  function JoinFrom(path: string, rest: seq<string>): string
    decreases |rest|
  {
    if rest == [] then path else JoinFrom(JoinStep(path, rest[0]), rest[1..])
  }

  /** `os.path.join(*parts)`; Python refuses an empty argument list, and
      `Parts` is never empty. */
  function Join(parts: Parts): string
  {
    JoinFrom(parts[0], parts[1..])
  }

  /** A piece that joins as plain text: non-empty and holding no separator. */
  predicate PlainPiece(p: string)
  {
    p != "" && '/' !in p
  }

  lemma {:induction false} JoinFromPlain(path: string, rest: Parts)
    requires path != "" && path[|path| - 1] != '/'
    requires forall i :: 0 <= i < |rest| ==> PlainPiece(rest[i])
    ensures JoinFrom(path, rest) == path + "/" + SepJoin(rest, '/')
    decreases |rest|
  {
    var b := rest[0];
    var step := path + "/" + b;
    assert b[0] in b && b[|b| - 1] in b;
    assert JoinStep(path, b) == step;
    if |rest| == 1 {
      assert rest[1..] == [];
    } else {
      var tail: Parts := rest[1..];
      assert step[|step| - 1] == b[|b| - 1];
      JoinFromPlain(step, tail);
      assert step + "/" + SepJoin(tail, '/') == path + "/" + (b + "/" + SepJoin(tail, '/'));
    }
  }

  /** With plain pieces, `os.path.join(*parts)` is `"/".join(parts)`. */
  lemma JoinPlain(parts: Parts)
    requires forall i :: 0 <= i < |parts| ==> PlainPiece(parts[i])
    ensures Join(parts) == SepJoin(parts, '/')
  {
    if |parts| > 1 {
      assert parts[0][|parts[0]| - 1] in parts[0];
      JoinFromPlain(parts[0], parts[1..]);
    }
  }

  /** An absolute piece discards everything joined before it. */
  lemma AbsolutePieceRestarts(path: string, b: string)
    requires StartsWith(b, "/")
    ensures Join([path, b]) == b
  {
    var ps: Parts := [path, b];
    assert ps[1..] == [b] && [b][1..] == [];
    assert JoinStep(path, b) == b;
    assert JoinFrom(path, [b]) == JoinFrom(b, []);
  }
}

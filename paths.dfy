/**
 * File paths as the command line hands them over (`PathBuf`), and the one
 * comparison the handlers make on them: equality with the stdin sentinel `-`.
 *
 * Rust compares two `PathBuf`s by their components, not by their text, so
 * redundant separators and `.` pieces after the first one do not matter:
 * `-/` and `-//./` are the same path as `-`, while `./-` and `/-` are not.
 * Only the Unix reading of a path is modelled.
 */
module Paths {

  type Path = string

  datatype Component = RootDir | CurDir | ParentDir | Normal(name: string)

  /** The pieces of `p` between `/` separators, empty pieces kept. */
  function Pieces(p: string): (r: seq<string>)
    ensures |r| >= 1
    decreases |p|
  {
    if p == [] then [""]
    else
      var rest := Pieces(p[1..]);
      if p[0] == '/' then [""] + rest else [[p[0]] + rest[0]] + rest[1..]
  }

  /** The component a piece contributes after the start of a path: empty pieces and `.` vanish. */
  function PieceComponent(piece: string): seq<Component>
  {
    if piece == "" || piece == "." then []
    else if piece == ".." then [ParentDir]
    else [Normal(piece)]
  }

  function PiecesComponents(pieces: seq<string>): seq<Component>
  {
    if pieces == [] then [] else PieceComponent(pieces[0]) + PiecesComponents(pieces[1..])
  }

  /** `Path::components` on Unix: a leading `/` is the root, a leading `.` piece is kept as `CurDir`. */
  function Components(p: Path): seq<Component>
  {
    var pieces := Pieces(p);
    if p != [] && p[0] == '/' then [RootDir] + PiecesComponents(pieces[1..])
    else if pieces[0] == "." then [CurDir] + PiecesComponents(pieces[1..])
    else PiecesComponents(pieces)
  }

  /** `PathBuf` equality. */
  predicate SamePath(a: Path, b: Path)
  {
    Components(a) == Components(b)
  }

  /** The path the handlers compare against to mean "read standard input". */
  const StdinSentinel: Path := "-"

  /** `p` is the sentinel as a `PathBuf`: its only component is the normal component `-`. */
  predicate IsStdinPath(p: Path)
  {
    Components(p) == [Normal(StdinSentinel)]
  }

  /** Index of the first `/` in `p`, or `|p|` when there is none. */
  function FirstSlash(p: string): (k: nat)
    ensures k <= |p|
    ensures forall i :: 0 <= i < k ==> p[i] != '/'
    ensures k < |p| ==> p[k] == '/'
  {
    if p == [] || p[0] == '/' then 0 else 1 + FirstSlash(p[1..])
  }

  /** The first piece is the text before the first separator. */
  lemma {:induction false} FirstPiece(p: string)
    ensures Pieces(p)[0] == p[..FirstSlash(p)]
    decreases |p|
  {
    if p != [] && p[0] != '/' {
      FirstPiece(p[1..]);
    }
  }

  /** The pieces of a string made only of separators are all empty. */
  lemma {:induction false} SlashesArePieceless(s: string)
    requires forall i :: 0 <= i < |s| ==> s[i] == '/'
    ensures PiecesComponents(Pieces(s)) == []
    decreases |s|
  {
    if s != [] {
      SlashesArePieceless(s[1..]);
      assert Pieces(s) == [""] + Pieces(s[1..]);
      assert Pieces(s)[1..] == Pieces(s[1..]);
    }
  }

  /** The components of `"-" + tail` when `tail` is empty or starts with a separator. */
  lemma DashThenSeparator(p: Path)
    requires |p| >= 1 && p[0] == '-' && (|p| == 1 || p[1] == '/')
    ensures Components(p) == [Normal("-")] + PiecesComponents(Pieces(p)[1..])
  {
    FirstPiece(p);
    assert FirstSlash(p) == 1 by {
      assert FirstSlash(p) == 1 + FirstSlash(p[1..]);
    }
    var pieces := Pieces(p);
    assert pieces[0] == "-";
    assert PiecesComponents(pieces) == PieceComponent("-") + PiecesComponents(pieces[1..]);
  }

  /**
   * Every spelling of the stdin sentinel starts with `-` followed by the end of
   * the path or a separator; `-` itself and `-` followed only by separators are
   * such spellings.
   */
  lemma StdinPathShape(p: Path)
    ensures IsStdinPath(p) ==> |p| >= 1 && p[0] == '-' && (|p| == 1 || p[1] == '/')
    ensures (p == "-" || (|p| >= 2 && p[0] == '-' && forall i :: 1 <= i < |p| ==> p[i] == '/')) ==> IsStdinPath(p)
  {
    if IsStdinPath(p) {
      var pieces := Pieces(p);
      FirstPiece(p);
      if p != [] && p[0] != '/' && pieces[0] != "." {
        assert Components(p) == PieceComponent(pieces[0]) + PiecesComponents(pieces[1..]);
        assert pieces[0] == p[..FirstSlash(p)];
        assert p[..FirstSlash(p)] != [] by {
          assert FirstSlash(p) == 1 + FirstSlash(p[1..]);
        }
        assert PieceComponent(pieces[0]) == [Normal(pieces[0])];
        assert pieces[0] == "-";
        assert FirstSlash(p) == 1;
      }
    }
    if p == "-" || (|p| >= 2 && p[0] == '-' && forall i :: 1 <= i < |p| ==> p[i] == '/') {
      DashThenSeparator(p);
      if |p| >= 2 {
        var tail := p[1..];
        assert Pieces(p) == [[p[0]] + Pieces(tail)[0]] + Pieces(tail)[1..];
        assert Pieces(tail) == [""] + Pieces(tail[1..]);
        assert Pieces(p)[1..] == Pieces(tail[1..]);
        SlashesArePieceless(tail[1..]);
      } else {
        assert Pieces(p)[1..] == [];
      }
    }
  }

  /** Comparing with the sentinel's components is comparing with the sentinel as a `PathBuf`. */
  lemma StdinPathIsSamePath(p: Path)
    ensures IsStdinPath(p) <==> SamePath(p, StdinSentinel)
  {
    DashThenSeparator(StdinSentinel);
  }

  /** Paths that only look like the sentinel are files: a leading `./` or `/`, or more text after `-`. */
  lemma NearMissesAreFiles()
    ensures !IsStdinPath("./-") && !IsStdinPath("/-") && !IsStdinPath("--") && !IsStdinPath("-.") && !IsStdinPath("")
  {
    StdinPathShape("./-");
    StdinPathShape("/-");
    StdinPathShape("--");
    StdinPathShape("-.");
    StdinPathShape("");
  }
}

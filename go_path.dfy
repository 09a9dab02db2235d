/**
 * Go's `path.Clean` and `path.Join` for slash-separated paths. Clean works lexically on the
 * path's elements: empty and "." elements vanish, ".." removes the element before it, a
 * ".." at the start of a rooted path vanishes, and the rest are joined by single slashes.
 */
module GoPath {

  import opened GoStrings

  /** One element of lexical processing applied to the elements kept so far. */
  function Step(kept: seq<string>, e: string, rooted: bool): seq<string> {
    if e == "" || e == "." then kept
    else if e == ".." then
      if |kept| > 0 && kept[|kept| - 1] != ".." then kept[..|kept| - 1]
      else if rooted then kept
      else kept + [".."]
    else kept + [e]
  }

  /** Processes `rest` after the elements `kept`, from left to right. */
  function Resolve(kept: seq<string>, rest: seq<string>, rooted: bool): seq<string>
    decreases |rest|
  {
    if rest == [] then kept else Resolve(Step(kept, rest[0], rooted), rest[1..], rooted)
  }

  /** path.Clean. */
  function Clean(p: string): (r: string)
    ensures r != ""
  {
    if p == "" then "."
    else
      var rooted := p[0] == '/';
      var body := Join(Resolve([], Split(p, '/'), rooted), '/');
      if rooted then "/" + body else if body == "" then "." else body
  }

  /** The index of the first non-empty element, or |elems| if there is none. */
  function FirstNonEmpty(elems: seq<string>): (i: nat)
    ensures i <= |elems|
    ensures forall j :: 0 <= j < i ==> elems[j] == ""
    ensures i < |elems| ==> elems[i] != ""
    decreases |elems|
  {
    if elems == [] then 0 else if elems[0] != "" then 0 else 1 + FirstNonEmpty(elems[1..])
  }

  /** path.Join: the elements from the first non-empty one, slash-joined and cleaned; "" if all are empty. */
  function JoinPath(elems: seq<string>): string {
    var i := FirstNonEmpty(elems);
    if i == |elems| then "" else Clean(Join(elems[i..], '/'))
  }

  // ---------------------------------------------------------------------------------------
  // Clean's results are in normal form

  /** A proper path element: not empty, not "." or "..", without a slash. */
  predicate IsName(e: string) {
    e != "" && e != "." && e != ".." && '/' !in e
  }

  /**
   * The elements Clean keeps: names and "..", with every ".." before every name, and no ".."
   * at all in a rooted path.
   */
  predicate Normal(kept: seq<string>, rooted: bool) {
    && (forall i :: 0 <= i < |kept| ==> IsName(kept[i]) || kept[i] == "..")
    && (forall i, j :: 0 <= i < j < |kept| && kept[j] == ".." ==> kept[i] == "..")
    && (rooted ==> forall i :: 0 <= i < |kept| ==> kept[i] != "..")
  }

  lemma StepNormal(kept: seq<string>, e: string, rooted: bool)
    requires Normal(kept, rooted) && '/' !in e
    ensures Normal(Step(kept, e, rooted), rooted)
  {
    if e == ".." && |kept| > 0 && kept[|kept| - 1] != ".." {
      assert Step(kept, e, rooted) == kept[..|kept| - 1];
    }
  }

  lemma {:induction false} ResolveNormal(kept: seq<string>, rest: seq<string>, rooted: bool)
    requires Normal(kept, rooted) && SeparatorFree(rest, '/')
    ensures Normal(Resolve(kept, rest, rooted), rooted)
    decreases |rest|
  {
    if rest != [] {
      StepNormal(kept, rest[0], rooted);
      assert SeparatorFree(rest[1..], '/') by {
        forall i | 0 <= i < |rest| - 1 ensures '/' !in rest[1..][i] {
          assert rest[1..][i] == rest[i + 1];
        }
      }
      ResolveNormal(Step(kept, rest[0], rooted), rest[1..], rooted);
    }
  }

  /** Processing a list already in normal form keeps all of it. */
  lemma {:induction false} ResolveKeepsNormal(kept: seq<string>, rest: seq<string>, rooted: bool)
    requires Normal(kept + rest, rooted)
    ensures Resolve(kept, rest, rooted) == kept + rest
    decreases |rest|
  {
    if rest != [] {
      var all := kept + rest;
      assert all[|kept|] == rest[0];
      if rest[0] == ".." && |kept| > 0 {
        assert all[|kept| - 1] == kept[|kept| - 1];
      }
      assert Step(kept, rest[0], rooted) == kept + [rest[0]];
      assert kept + [rest[0]] + rest[1..] == all;
      ResolveKeepsNormal(kept + [rest[0]], rest[1..], rooted);
    }
  }

  /** Every part of a normal list is free of slashes. */
  lemma NormalSeparatorFree(kept: seq<string>, rooted: bool)
    requires Normal(kept, rooted)
    ensures SeparatorFree(kept, '/')
  {
    forall i | 0 <= i < |kept| ensures '/' !in kept[i] {
      assert IsName(kept[i]) || kept[i] == "..";
    }
  }

  lemma {:induction false} JoinStartsWithFirst(parts: seq<string>)
    requires |parts| >= 1 && parts[0] != ""
    ensures Join(parts, '/') != "" && Join(parts, '/')[0] == parts[0][0]
    decreases |parts|
  {
  }

  /** Cleaning the slash-join of a non-empty relative list in normal form changes nothing. */
  lemma CleanOfNormal(kept: seq<string>)
    requires |kept| >= 1 && Normal(kept, false)
    ensures Clean(Join(kept, '/')) == Join(kept, '/')
  {
    var body := Join(kept, '/');
    JoinStartsWithFirst(kept);
    assert body[0] != '/' by {
      assert IsName(kept[0]) || kept[0] == "..";
      assert kept[0][0] in kept[0];
    }
    NormalSeparatorFree(kept, false);
    SplitJoin(kept, '/');
    ResolveKeepsNormal([], kept, false);
    assert [] + kept == kept;
  }

  /** The body Clean joins for `p`, and the facts about it the idempotence proof needs. */
  lemma CleanBody(p: string)
    requires p != ""
    ensures var kept := Resolve([], Split(p, '/'), p[0] == '/');
            Normal(kept, p[0] == '/') && (kept != [] ==> kept[0] != "")
  {
    SplitFree(p, '/');
    ResolveNormal([], Split(p, '/'), p[0] == '/');
  }

  lemma CleanDot()
    ensures Clean(".") == "."
  {
    SplitFromPiece(".", '/', []);
    assert [] + "." == ".";
    assert Resolve([], ["."], false) == [];
  }

  lemma CleanRoot()
    ensures Clean("/") == "/"
  {
    SplitFromConcat("", "", '/', []);
    assert "" + ['/'] + "" == "/";
    assert Split("/", '/') == ["", ""];
    assert Resolve([], ["", ""], true) == [];
  }

  /** Cleaning "/" followed by the slash-join of a non-empty rooted list in normal form changes nothing. */
  lemma CleanOfRootedNormal(kept: seq<string>)
    requires |kept| >= 1 && Normal(kept, true)
    ensures Clean("/" + Join(kept, '/')) == "/" + Join(kept, '/')
  {
    var body := Join(kept, '/');
    var r := "/" + body;
    NormalSeparatorFree(kept, true);
    SplitJoin(kept, '/');
    SplitFromConcat("", body, '/', []);
    assert r == "" + ['/'] + body;
    assert Split(r, '/') == [""] + kept;
    assert Resolve([], [""] + kept, true) == Resolve([], kept, true);
    ResolveKeepsNormal([], kept, true);
    assert [] + kept == kept;
  }

  /** path.Clean is idempotent: a cleaned path is clean. */
  lemma CleanIdempotent(p: string)
    ensures Clean(Clean(p)) == Clean(p)
  {
    if p == "" {
      CleanDot();
    } else {
      var rooted := p[0] == '/';
      var kept := Resolve([], Split(p, '/'), rooted);
      CleanBody(p);
      if kept == [] {
        if rooted {
          CleanRoot();
        } else {
          CleanDot();
        }
      } else if rooted {
        CleanOfRootedNormal(kept);
      } else {
        CleanOfNormal(kept);
      }
    }
  }

  /** path.Join of two names is their slash-join. */
  lemma JoinNames(a: string, b: string)
    requires IsName(a) && IsName(b)
    ensures JoinPath([a, b]) == a + "/" + b
  {
    assert [a, b][FirstNonEmpty([a, b])..] == [a, b];
    assert Join([a, b], '/') == a + "/" + b;
    assert Normal([a, b], false);
    CleanOfNormal([a, b]);
  }
}

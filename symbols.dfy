/** Symbols in the SpaceTraders universe are dash-separated paths: a
    waypoint "X1-DF55-20250Z" lies in the system "X1-DF55", which lies in
    the sector "X1". The client derives an agent's headquarters system from
    its headquarters waypoint with `str.split("-")` and a re-join of the
    first two parts. */
module Symbols {
  import opened Wrappers
  import opened JsonValues

  const Dash := '-'

  /** `s.split("-")`: the maximal dash-free pieces of `s`, empty pieces
      included; the empty string splits into one empty piece. */
  function Split(s: string): (parts: seq<string>)
    ensures |parts| >= 1
    ensures Dash !in s <==> |parts| == 1
    ensures Dash !in s ==> parts == [s]
    decreases |s|
  {
    if s == [] then [""]
    else if s[0] == Dash then [""] + Split(s[1..])
    else
      var rest := Split(s[1..]);
      assert s == [s[0]] + s[1..];
      [[s[0]] + rest[0]] + rest[1..]
  }

  /** `"-".join(parts)`. */
  function Join(parts: seq<string>): string
    requires |parts| >= 1
    decreases |parts|
  {
    if |parts| == 1 then parts[0] else parts[0] + [Dash] + Join(parts[1..])
  }

  predicate DashFree(s: string) {
    Dash !in s
  }

  /** Splitting a string that starts with a dash-free piece and a dash. */
  lemma {:induction false} SplitCons(a: string, t: string)
    requires DashFree(a)
    ensures Split(a + [Dash] + t) == [a] + Split(t)
    decreases |a|
  {
    if a == [] {
      assert a + [Dash] + t == [Dash] + t;
      assert ([Dash] + t)[1..] == t;
    } else {
      var s := a + [Dash] + t;
      assert s[0] == a[0] && s[1..] == a[1..] + [Dash] + t;
      SplitCons(a[1..], t);
      assert [a[0]] + a[1..] == a;
    }
  }

  /** No piece of a split contains a dash. */
  lemma {:induction false} SplitPiecesDashFree(s: string)
    ensures forall i :: 0 <= i < |Split(s)| ==> DashFree(Split(s)[i])
    decreases |s|
  {
    if s != [] {
      SplitPiecesDashFree(s[1..]);
    }
  }

  /** Joining the pieces of a split gives the string back. */
  lemma {:induction false} JoinSplit(s: string)
    ensures Join(Split(s)) == s
    decreases |s|
  {
    if s != [] {
      var rest := Split(s[1..]);
      JoinSplit(s[1..]);
      if s[0] == Dash {
        assert ([""] + rest)[1..] == rest;
        assert s == [Dash] + s[1..];
      } else {
        var parts := [[s[0]] + rest[0]] + rest[1..];
        if |rest| == 1 {
          assert s == [s[0]] + s[1..];
        } else {
          assert parts[1..] == rest[1..];
          assert Join(rest) == rest[0] + [Dash] + Join(rest[1..]);
          assert s == [s[0]] + s[1..];
        }
      }
    }
  }

  /** Splitting a join of dash-free pieces gives the pieces back. */
  lemma {:induction false} SplitJoin(parts: seq<string>)
    requires |parts| >= 1
    requires forall i :: 0 <= i < |parts| ==> DashFree(parts[i])
    ensures Split(Join(parts)) == parts
    decreases |parts|
  {
    if |parts| > 1 {
      SplitJoin(parts[1..]);
      SplitCons(parts[0], Join(parts[1..]));
      assert [parts[0]] + parts[1..] == parts;
    }
  }

  /** The headquarters system of a headquarters waypoint: the first two
      pieces re-joined with a dash. A symbol with no dash has one piece, and
      asking for the second raises IndexError. */
  function HeadquartersSystem(waypoint: string): (r: Result<string, Failure>)
    ensures r.Failure? <==> DashFree(waypoint)
    ensures r.Failure? ==> r.error == IndexError
  {
    var parts := Split(waypoint);
    if |parts| < 2 then Failure(IndexError) else Success(parts[0] + [Dash] + parts[1])
  }

  /** The system of a waypoint symbol built from dash-free pieces is the
      first two of them. */
  lemma SystemOfJoinedSymbol(parts: seq<string>)
    requires |parts| >= 2
    requires forall i :: 0 <= i < |parts| ==> DashFree(parts[i])
    ensures HeadquartersSystem(Join(parts)) == Success(parts[0] + [Dash] + parts[1])
  {
    SplitJoin(parts);
  }

  /** The system is a dash-delimited prefix of the waypoint: the waypoint
      is the system itself or continues it past a dash. */
  lemma {:induction false} SystemIsPrefix(waypoint: string)
    requires HeadquartersSystem(waypoint).Success?
    ensures var system := HeadquartersSystem(waypoint).value;
      waypoint == system || (|system| < |waypoint| && waypoint[..|system| + 1] == system + [Dash])
  {
    var parts := Split(waypoint);
    JoinSplit(waypoint);
    var system := parts[0] + [Dash] + parts[1];
    if |parts| == 2 {
      assert Join(parts[1..]) == parts[1];
    } else {
      assert Join(parts) == parts[0] + [Dash] + (parts[1] + [Dash] + Join(parts[2..]));
      assert waypoint == (system + [Dash]) + Join(parts[2..]);
    }
  }

  /** A waypoint symbol of three pieces lies in the system of its first two. */
  lemma SystemOfThreePieces(sector: string, system: string, waypoint: string)
    requires DashFree(sector) && DashFree(system) && DashFree(waypoint)
    ensures HeadquartersSystem(sector + [Dash] + system + [Dash] + waypoint) == Success(sector + [Dash] + system)
  {
    var parts := [sector, system, waypoint];
    SystemOfJoinedSymbol(parts);
    assert parts[1..][1..] == [waypoint];
    assert Join(parts[1..]) == system + [Dash] + waypoint;
    assert Join(parts) == sector + [Dash] + system + [Dash] + waypoint;
  }

  /** An example: the waypoint "X1-DF55-20250Z" lies in "X1-DF55". */
  lemma ExampleSystem(hq: string)
    requires hq == "X1-DF55-20250Z"
    ensures HeadquartersSystem(hq) == Success("X1-DF55")
  {
    var sector, system, waypoint := "X1", "DF55", "20250Z";
    SystemOfThreePieces(sector, system, waypoint);
    assert sector + [Dash] == "X1-";
    assert "X1-" + system == "X1-DF55";
    assert "X1-DF55" + [Dash] == "X1-DF55-";
    assert "X1-DF55-" + waypoint == hq;
  }

  /** `agent_info["headquarters"]` must be a string for `.split` to exist. */
  function HeadquartersOf(headquarters: Json): (r: Result<string, Failure>)
    ensures !headquarters.JStr? ==> r == Failure(AttributeError)
    ensures headquarters.JStr? ==> r == HeadquartersSystem(headquarters.s)
  {
    if headquarters.JStr? then HeadquartersSystem(headquarters.s) else Failure(AttributeError)
  }
}

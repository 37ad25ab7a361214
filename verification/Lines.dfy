/** The senders that wait for a slot of a bounded channel: slots go to them in the order in which they asked. */
module Lines {

  /** How many are ahead of `x`. */
  function Place<T(==)>(line: seq<T>, x: T): (n: nat)
    ensures n <= |line| && (x in line <==> n < |line|)
  {
    if line == [] || line[0] == x then 0 else 1 + Place(line[1..], x)
  }

  /** The line after `x` has left it. */
  function Leave<T(==)>(line: seq<T>, x: T): seq<T> {
    if line == [] then []
    else if line[0] == x then line[1..]
    else [line[0]] + Leave(line[1..], x)
  }

  /** A free slot of the channel, which holds `used` messages of at most `capacity`, is promised to `x`. */
  predicate Granted<T(==)>(line: seq<T>, used: nat, capacity: nat, x: T) {
    x in line && used + Place(line, x) < capacity
  }

  ghost predicate NoRepeats<T>(line: seq<T>) {
    forall i, j | 0 <= i < j < |line| :: line[i] != line[j]
  }

  lemma NoRepeatsTail<T>(line: seq<T>)
    requires line != [] && NoRepeats(line)
    ensures NoRepeats(line[1..]) && line[0] !in line[1..]
  {
  }

  lemma NoRepeatsCons<T>(x: T, line: seq<T>)
    requires NoRepeats(line) && x !in line
    ensures NoRepeats([x] + line)
  {
  }

  lemma NoRepeatsJoin<T>(line: seq<T>, x: T)
    requires NoRepeats(line) && x !in line
    ensures NoRepeats(line + [x])
  {
  }

  /** Joining at the end moves nobody. */
  lemma {:induction false} JoinPlace<T>(line: seq<T>, x: T, y: T)
    requires y in line
    ensures Place(line + [x], y) == Place(line, y)
  {
    if line[0] == y {
    } else {
      JoinPlace(line[1..], x, y);
      assert (line + [x])[1..] == line[1..] + [x];
    }
  }

  lemma {:induction false} JoinLast<T>(line: seq<T>, x: T)
    requires x !in line
    ensures Place(line + [x], x) == |line|
  {
    if line == [] {
    } else {
      JoinLast(line[1..], x);
      assert (line + [x])[1..] == line[1..] + [x];
    }
  }

  /** Who leaves is gone, and nobody else is. */
  lemma {:induction false} LeaveMembers<T>(line: seq<T>, x: T)
    requires NoRepeats(line) && x in line
    ensures NoRepeats(Leave(line, x)) && |Leave(line, x)| == |line| - 1
    ensures forall y :: y in Leave(line, x) <==> y in line && y != x
  {
    NoRepeatsTail(line);
    assert line == [line[0]] + line[1..];
    if line[0] == x {
    } else {
      LeaveMembers(line[1..], x);
      NoRepeatsCons(line[0], Leave(line[1..], x));
    }
  }

  /** Those behind the one that leaves move up by one. */
  lemma {:induction false} LeavePlace<T>(line: seq<T>, x: T, y: T)
    requires NoRepeats(line) && x in line && y in line && x != y
    ensures Place(Leave(line, x), y) == Place(line, y) - if Place(line, x) < Place(line, y) then 1 else 0
  {
    if line[0] == x || line[0] == y {
    } else {
      NoRepeatsTail(line);
      LeavePlace(line[1..], x, y);
      assert Leave(line, x)[1..] == Leave(line[1..], x);
    }
  }

  /**
    While nothing is taken from the channel, a promise is neither made nor lost: when a sender to whom a slot is
    promised puts its message in and leaves, the others keep what they have.
   */
  lemma SendKeepsGrants<T>(line: seq<T>, used: nat, capacity: nat, x: T, y: T)
    requires NoRepeats(line) && Granted(line, used, capacity, x) && y in line && y != x
    ensures Granted(Leave(line, x), used + 1, capacity, y) <==> Granted(line, used, capacity, y)
  {
    LeaveMembers(line, x);
    LeavePlace(line, x, y);
    PlacesDiffer(line, x, y);
  }

  lemma {:induction false} PlacesDiffer<T>(line: seq<T>, x: T, y: T)
    requires x in line && y in line && x != y
    ensures Place(line, x) != Place(line, y)
  {
    if line[0] == x || line[0] == y {
    } else {
      PlacesDiffer(line[1..], x, y);
    }
  }
}

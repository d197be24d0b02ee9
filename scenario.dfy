/**
  Runs of the server with two clients and no failing connection, proved
  from the contracts of the server's operations alone.
 */
module Scenario {
  import opened Registry
  import opened Text
  import opened Server

  /** A client on `a` and then one on `b` connect and send the username lines `first` and `second`. */
  method TwoUsers(a: Conn, b: Conn, first: Read, second: Read) returns (server: ChatServer, bobJoined: seq<Attempt>)
    requires a != b && IsLine(first) && IsLine(second)
    ensures fresh(server)
    ensures server.clients == {a, b}
    ensures bobJoined == [Attempt(a, JoinNotice(Strip(second.data)), true)]
  {
    server := new ChatServer();

    server.Accept(a, first.at);
    var alice := server.ReadUsername(a, first);
    var welcome, aliceJoined := server.Join(a, alice.value, {});
    assert server.clients == {a};

    server.Accept(b, second.at);
    var bob := server.ReadUsername(b, second);
    assert server.clients == {a, b};
    ghost var v := server.View();
    assert Targets(v, Some(b)) == {a};
    welcome, bobJoined := server.Join(b, bob.value, {});
    SingleTarget(bobJoined, v, Some(b), JoinNotice(bob.value), {});
  }

  /** On a server holding just `a` and `b`, `a` sends the chat line `hi`; it is written to `b` only. */
  method OneChat(server: ChatServer, a: Conn, b: Conn, name: string, hi: Read) returns (toPeer: seq<Attempt>)
    requires a != b && server.clients == {a, b}
    requires IsLine(hi) && !IsPing(hi)
    modifies server
    ensures server.clients == {a, b}
    ensures toPeer == [Attempt(b, ChatLine(hi.clock, name, Strip(hi.data)), true)]
  {
    ghost var v := server.View();
    assert Targets(v, Some(a)) == {b};
    var more, said;
    more, said, toPeer := server.HandleRead(a, name, hi, {});
    SingleTarget(toPeer, v, Some(a), ChatLine(hi.clock, name, Strip(hi.data)), {});
  }

  /** On a server holding just `a` and `b`, `a` disconnects; `b` alone hears of it and alone remains. */
  method OneLeaves(server: ChatServer, a: Conn, b: Conn, name: string) returns (toPeer: seq<Attempt>)
    requires a != b && server.clients == {a, b}
    modifies server
    ensures server.clients == {b}
    ensures toPeer == [Attempt(b, LeaveNotice(name), true)]
  {
    ghost var v := server.View();
    assert Targets(v, Some(a)) == {b};
    toPeer := server.Teardown(a, name, {});
    SingleTarget(toPeer, v, Some(a), LeaveNotice(name), {});
  }

  /** The last client left sends the chat line `bye`; nobody is written to and it stays connected. */
  method Alone(server: ChatServer, b: Conn, name: string, bye: Read) returns (toNobody: seq<Attempt>)
    requires server.clients == {b}
    requires IsLine(bye) && !IsPing(bye)
    modifies server
    ensures server.clients == {b}
    ensures toNobody == []
  {
    ghost var v := server.View();
    assert Targets(v, Some(b)) == {};
    var more, said;
    more, said, toNobody := server.HandleRead(b, name, bye, {});
    SingleTarget(toNobody, v, Some(b), ChatLine(bye.clock, name, Strip(bye.data)), {});
  }

  /**
    Alice on `a` and then Bob on `b` join; alice sends the chat line `hi`,
    then leaves, then bob sends `bye`. Bob's join notice went to alice only,
    alice's line goes to bob only, her departure is announced to bob, and
    bob's last line is written to nobody.
   */
  method AliceAndBob(a: Conn, b: Conn, alice: Read, bob: Read, hi: Read, bye: Read)
    returns (bobJoined: seq<Attempt>, toBob: seq<Attempt>, aliceLeft: seq<Attempt>, toNobody: seq<Attempt>)
    requires a != b && IsLine(alice) && IsLine(bob)
    requires IsLine(hi) && !IsPing(hi) && IsLine(bye) && !IsPing(bye)
    ensures bobJoined == [Attempt(a, JoinNotice(Strip(bob.data)), true)]
    ensures toBob == [Attempt(b, ChatLine(hi.clock, Strip(alice.data), Strip(hi.data)), true)]
    ensures aliceLeft == [Attempt(b, LeaveNotice(Strip(alice.data)), true)]
    ensures toNobody == []
  {
    var server;
    server, bobJoined := TwoUsers(a, b, alice, bob);
    toBob := OneChat(server, a, b, Strip(alice.data), hi);
    aliceLeft := OneLeaves(server, a, b, Strip(alice.data));
    toNobody := Alone(server, b, Strip(bob.data), bye);
  }
}

/** A mailbox whose messages and whose waiting tasks are each served first-come or by priority.  Every
    message sent is delivered at most once, to one task that asked, and none is lost. */
module Mailboxes {
  import opened TaskQueues
  import opened KernelState

  /** The item x of a queue s is the one that its order serves: the head, or the first of the best
      priority. */
  ghost predicate Serves(s: seq<Link>, order: Order, pri: nat -> int, x: Link) {
    if order == TFIFO then s != [] && x == s[0] else exists k: nat :: FirstBest(s, pri, k) && x == s[k]
  }

  /** Queue s' is s without the item x. */
  ghost predicate TakenFrom(s: seq<Link>, x: Link, s': seq<Link>) {
    exists k: nat :: k < |s| && s[k] == x && s' == Without(s, k)
  }

  function Takers(given: seq<(Link, Link)>): (r: seq<Link>)
    ensures |r| == |given| && forall i | 0 <= i < |r| :: r[i] == given[i].0
  {
    seq(|given|, i requires 0 <= i < |given| => given[i].0)
  }

  function Messages(given: seq<(Link, Link)>): (r: seq<Link>)
    ensures |r| == |given| && forall i | 0 <= i < |r| :: r[i] == given[i].1
  {
    seq(|given|, i requires 0 <= i < |given| => given[i].1)
  }

  lemma GiveOne(given: seq<(Link, Link)>, task: Link, msg: Link)
    ensures Takers(given + [(task, msg)]) == Takers(given) + [task]
    ensures Messages(given + [(task, msg)]) == Messages(given) + [msg]
  {
  }

  lemma WithoutMultiset(s: seq<Link>, k: nat)
    requires k < |s|
    ensures multiset(Without(s, k)) + multiset{s[k]} == multiset(s)
  {
    assert s == s[..k] + [s[k]] + s[k + 1..];
  }

  lemma Repeated(s: seq<Link>, i: nat, j: nat)
    requires i < j < |s| && s[i] == s[j]
    ensures multiset(s)[s[i]] >= 2
  {
    assert s == s[..j] + [s[j]] + s[j + 1..];
    assert s[i] == s[..j][i] && s[i] in multiset(s[..j]);
  }

  /** The items done with, followed by those still queued, are all that came, in any order; with
      first-come service, in the order they came. */
  ghost predicate Accounts(order: Order, done: seq<Link>, queued: seq<Link>, came: seq<Link>) {
    && multiset(done) + multiset(queued) == multiset(came)
    && (order == TFIFO ==> done + queued == came)
  }

  lemma Queue(order: Order, done: seq<Link>, queued: seq<Link>, came: seq<Link>, x: Link)
    requires Accounts(order, done, queued, came)
    ensures Accounts(order, done, queued + [x], came + [x])
  {
    assert done + (queued + [x]) == done + queued + [x];
  }

  lemma Serve(order: Order, done: seq<Link>, queued: seq<Link>, came: seq<Link>, k: nat)
    requires Accounts(order, done, queued, came) && k < |queued| && (order == TFIFO ==> k == 0)
    ensures Accounts(order, done + [queued[k]], Without(queued, k), came)
  {
    WithoutMultiset(queued, k);
    if order == TFIFO { assert done + [queued[0]] + queued[1..] == done + queued; }
  }

  lemma ServeAtOnce(order: Order, done: seq<Link>, came: seq<Link>, x: Link)
    requires Accounts(order, done, [], came)
    ensures Accounts(order, done + [x], [], came + [x])
  {
    assert done + [] == done;
  }

  class Mailbox {
    const msgAtr: Order                     // how messages are served
    const waiAtr: Order                     // how waiting tasks are served
    const messages: TaskQueue
    const waiters: TaskQueue
    ghost var sent: seq<Link>               // every message sent, in order
    ghost var asked: seq<Link>              // the wait links of the tasks of every accepted request, in order
    ghost var given: seq<(Link, Link)>      // every message handed over, and to whom

    /** Every message sent was delivered or is queued, every request accepted was served or waits, and
        messages and waiting tasks are never both present. */
    ghost predicate Valid()
      reads this, messages, messages.items, waiters, waiters.items
    {
      && messages != waiters && messages.Valid() && waiters.Valid()
      && (messages.items == [] || waiters.items == [])
      && Accounts(msgAtr, Messages(given), messages.items, sent)
      && Accounts(waiAtr, Takers(given), waiters.items, asked)
    }

    constructor (msgAtr: Order, waiAtr: Order)
      ensures Valid() && sent == asked == [] && given == [] && fresh(messages) && fresh(waiters)
      ensures this.msgAtr == msgAtr && this.waiAtr == waiAtr
    {
      this.msgAtr, this.waiAtr := msgAtr, waiAtr;
      messages := new TaskQueue();
      waiters := new TaskQueue();
      sent, asked, given := [], [], [];
    }

    /** With first-come service on both sides the k-th message sent goes to the k-th request. */
    lemma InTurn(k: nat)
      requires Valid() && msgAtr == TFIFO && waiAtr == TFIFO
      ensures k < |given| <==> k < |sent| && k < |asked|
      ensures k < |given| ==> given[k] == (asked[k], sent[k])
    {
      assert k < |given| ==> Messages(given)[k] == sent[k] && Takers(given)[k] == asked[k];
    }

    /** A message that was sent once is queued, or was delivered once, and not both. */
    lemma ExactlyOnce(msg: Link)
      requires Valid() && multiset(sent)[msg] == 1
      ensures msg in messages.items <==> !exists i :: 0 <= i < |given| && given[i].1 == msg
      ensures forall i, j | 0 <= i < j < |given| :: !(given[i].1 == given[j].1 == msg)
    {
      var done := Messages(given);
      assert multiset(done)[msg] + multiset(messages.items)[msg] == 1;
      assert msg in done <==> msg in multiset(done);
      assert msg in messages.items <==> msg in multiset(messages.items);
      assert forall i | 0 <= i < |given| :: given[i].1 == done[i];
      forall i, j | 0 <= i < j < |given| ensures !(given[i].1 == given[j].1 == msg) {
        if done[i] == done[j] { Repeated(done, i, j); }
      }
    }

    /** Take out of a queue the item that its order serves. */
    method TakeOut(x: TaskQueue, order: Order, pri: nat -> int) returns (l: Link, ghost k: nat)
      requires x.Valid() && x.items != []
      modifies x, x.items
      ensures k < |old(x.items)| && l == old(x.items)[k] && (order == TFIFO ==> k == 0)
      ensures Serves(old(x.items), order, pri, l)
      ensures x.Valid() && x.items == Without(old(x.items), k) && l.Free()
      ensures forall o: TaskQueue {:trigger o.Valid()} | old(allocated(o)) && o != x && old(o.Valid()) :: o.Valid()
    {
      if order == TFIFO {
        k := 0;
        l := x.GetHead();
      } else {
        l, k := x.ScanBest(pri);
        x.Remove(l, k);
      }
    }

    /** snd_mbx_isr: the message goes to the waiting task that is served, or else into the queue. */
    method Send(msg: Link, pri: nat -> int) returns (woken: Link?)
      requires Valid() && msg.Free()
      modifies this, messages, messages.items, waiters, waiters.items, msg
      ensures Valid() && sent == old(sent) + [msg] && asked == old(asked)
      ensures old(waiters.items) == [] ==>
                && woken == null && given == old(given)
                && messages.items == old(messages.items) + [msg] && waiters.items == []
      ensures old(waiters.items) != [] ==>
                && woken != null && Serves(old(waiters.items), waiAtr, pri, woken)
                && given == old(given) + [(woken, msg)]
                && messages.items == old(messages.items) && TakenFrom(old(waiters.items), woken, waiters.items)
    {
      if waiters.head != null {
        woken := HandOver(msg, pri);
      } else {
        Post(msg);
        woken := null;
      }
    }

    /** The waiting task that is served gets the message. */
    method HandOver(msg: Link, pri: nat -> int) returns (woken: Link)
      requires Valid() && waiters.items != []
      modifies this`given, this`sent, waiters, waiters.items
      ensures Valid() && sent == old(sent) + [msg] && given == old(given) + [(woken, msg)]
      ensures Serves(old(waiters.items), waiAtr, pri, woken)
      ensures TakenFrom(old(waiters.items), woken, waiters.items)
    {
      hide Serves, Accounts;
      ghost var w, k := waiters.items, 0;
      woken, k := TakeOut(waiters, waiAtr, pri);
      Serve(waiAtr, Takers(given), w, asked, k);
      ServeAtOnce(msgAtr, Messages(given), sent, msg);
      GiveOne(given, woken, msg);
      assert messages.items == [];
      given, sent := given + [(woken, msg)], sent + [msg];
    }

    method Post(msg: Link)
      requires Valid() && msg.Free() && waiters.items == []
      modifies this`sent, messages, messages.items, msg
      ensures Valid() && sent == old(sent) + [msg] && messages.items == old(messages.items) + [msg]
    {
      Queue(msgAtr, Messages(given), messages.items, sent, msg);
      messages.PutTail(msg);
      sent := sent + [msg];
    }

    /** rcv_mbx_isr for the task with the given wait link: it gets the message that is served, or waits. */
    method Receive(task: Link, msgpri: nat -> int) returns (msg: Link?)
      requires Valid() && task.Free()
      modifies this, messages, messages.items, waiters, waiters.items, task
      ensures Valid() && asked == old(asked) + [task] && sent == old(sent)
      ensures old(messages.items) == [] ==>
                && msg == null && given == old(given)
                && waiters.items == old(waiters.items) + [task] && messages.items == []
      ensures old(messages.items) != [] ==>
                && msg != null && Serves(old(messages.items), msgAtr, msgpri, msg)
                && given == old(given) + [(task, msg)]
                && waiters.items == old(waiters.items) && TakenFrom(old(messages.items), msg, messages.items)
    {
      if messages.head == null {
        Wait(task);
        msg := null;
      } else {
        msg := Fetch(task, msgpri);
      }
    }

    method Wait(task: Link)
      requires Valid() && task.Free() && messages.items == []
      modifies this`asked, waiters, waiters.items, task
      ensures Valid() && asked == old(asked) + [task] && waiters.items == old(waiters.items) + [task]
    {
      Queue(waiAtr, Takers(given), waiters.items, asked, task);
      waiters.PutTail(task);
      asked := asked + [task];
    }

    /** put_mbx_retmsg: the message that is served goes to the task. */
    method Fetch(task: Link, msgpri: nat -> int) returns (msg: Link)
      requires Valid() && messages.items != []
      modifies this`given, this`asked, messages, messages.items
      ensures Valid() && asked == old(asked) + [task] && given == old(given) + [(task, msg)]
      ensures Serves(old(messages.items), msgAtr, msgpri, msg)
      ensures TakenFrom(old(messages.items), msg, messages.items)
    {
      ghost var w, k := messages.items, 0;
      msg, k := TakeOut(messages, msgAtr, msgpri);
      Serve(msgAtr, Messages(given), w, sent, k);
      ServeAtOnce(waiAtr, Takers(given), asked, task);
      GiveOne(given, task, msg);
      given, asked := given + [(task, msg)], asked + [task];
    }

    /** prcv_mbx_isr: like Receive, but a request that finds no message is refused. */
    method Poll(task: Link, msgpri: nat -> int) returns (msg: Link?, er: int)
      requires Valid()
      modifies this, messages, messages.items
      ensures Valid() && sent == old(sent)
      ensures er == if old(messages.items) == [] then E_TMOUT else E_OK
      ensures waiters.items == old(waiters.items)
      ensures er == E_TMOUT ==>
                msg == null && asked == old(asked) && given == old(given) && messages.items == old(messages.items)
      ensures er == E_OK ==>
                && msg != null && Serves(old(messages.items), msgAtr, msgpri, msg)
                && TakenFrom(old(messages.items), msg, messages.items)
                && asked == old(asked) + [task] && given == old(given) + [(task, msg)]
    {
      if messages.head == null {
        msg, er := null, E_TMOUT;
      } else {
        msg := Fetch(task, msgpri);
        er := E_OK;
      }
    }
  }
}

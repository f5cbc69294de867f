/** The background work as it runs on the stores: the message handlers, the worker's dispatch, the
    delivery of one message, and one pass of the relay. */
module Worker {
  import opened Wrappers
  import opened Store
  import opened Topology
  import opened Machine
  import opened Serial
  import B = Backend
  import Email
  import Handlers

  // ---------- Handlers ----------

  method ProcessUserRegistration(b: B.Backend, ghost m: nat, payload: Payload) returns (out: Outcome)
    requires b.Valid()
    modifies b
    ensures b.Valid()
    ensures b.Rest(Settling(m, out)) == old(b.Rest(OfHandler(m, Handlers.ProcessUserRegistration(b.cfg, payload))))
  {
    hide Exec, Finish, B.Backend.Rest, B.Backend.View;
    if payload.Malformed? {
      return Failure(BadPayload);
    }
    var address := Email.NewEmail(b.cfg.normalise, payload.email);
    if address.Err? {
      return Success(Nothing);
    }
    var email, password := address.value, payload.password;
    ghost var p := Handling(m, Handlers.RegistrationFind(email, password));
    ghost var goal := b.Rest(p);
    var found, existingUser := b.FindByEmail(email, p);
    if existingUser != null {
      return Success(Nothing);
    }
    if !found.Absent? {
      return Failure(Dependency);
    }
    p := Handling(m, Handlers.RegistrationHash(email, password));
    assert b.Rest(p) == goal;
    var hashed := b.Hash(password, p);
    if !hashed.Hashed? || hashed.hash == "" {
      return Failure(Dependency);
    }
    p := Handling(m, Handlers.RegistrationSave(email, hashed.hash));
    assert b.Rest(p) == goal;
    var saved := b.Save(email, hashed.hash, p);
    out := if saved.Done? then Success(Nothing) else Failure(Dependency);
  }

  method ProcessRolesUpdate(b: B.Backend, ghost m: nat, payload: Payload) returns (out: Outcome)
    requires b.Valid()
    modifies b
    ensures b.Valid()
    ensures b.Rest(Settling(m, out)) == old(b.Rest(OfHandler(m, Handlers.ProcessRolesUpdate(payload))))
  {
    hide Exec, Finish, B.Backend.Rest, B.Backend.View;
    if payload.Malformed? {
      return Failure(BadPayload);
    }
    var found, user := b.FindByID(payload.userId, Handling(m, Handlers.RolesFind(payload.userId, payload.roles)));
    if user == null {
      return Failure(if found.Absent? then UserNotFound else Dependency);
    }
    user.RemoveRole("user", b.now);  // on the loaded copy, of which only the identifier is used
    out := WriteRoles(b, m, user.id, payload.roles);
  }

  method WriteRoles(b: B.Backend, ghost m: nat, userId: string, roles: Option<seq<string>>) returns (out: Outcome)
    requires b.Valid()
    modifies b
    ensures b.Valid()
    ensures b.Rest(Settling(m, out)) == old(b.Rest(Handling(m, Handlers.RolesWrite(userId, roles))))
  {
    hide Exec, Finish, B.Backend.Rest, B.Backend.View;
    var updated := b.UpdateRoles(userId, roles, Handling(m, Handlers.RolesWrite(userId, roles)));
    out := if updated.Done? then Success(Nothing) else Failure(Dependency);
  }

  method SendConfirmation(b: B.Backend, ghost m: nat, payload: Payload) returns (out: Outcome)
    requires b.Valid()
    modifies b
    ensures b.Valid()
    ensures b.Rest(Settling(m, out)) == old(b.Rest(OfHandler(m, Handlers.SendConfirmation(payload))))
  {
    hide Exec, Finish, B.Backend.Rest, B.Backend.View;
    if payload.Malformed? {
      return Failure(BadPayload);
    }
    var stored := b.Mint(Confirm, payload.id, Handling(m, Handlers.ConfirmationMint(payload.id)));
    out := if stored.Minted? then Success(Nothing) else Failure(Dependency);
  }

  method SendPasswordReset(b: B.Backend, ghost m: nat, payload: Payload) returns (out: Outcome)
    requires b.Valid()
    modifies b
    ensures b.Valid()
    ensures b.Rest(Settling(m, out)) == old(b.Rest(OfHandler(m, Handlers.SendPasswordReset(payload))))
  {
    hide Exec, Finish, B.Backend.Rest, B.Backend.View;
    if payload.Malformed? {
      return Failure(BadPayload);
    }
    var stored := b.Mint(Reset, payload.id, Handling(m, Handlers.ResetMint(payload.id)));
    out := if stored.Minted? then Success(Nothing) else Failure(Dependency);
  }

  method ProcessPasswordUpgrade(b: B.Backend, ghost m: nat, payload: Payload) returns (out: Outcome)
    requires b.Valid()
    modifies b
    ensures b.Valid()
    ensures b.Rest(Settling(m, out)) == old(b.Rest(OfHandler(m, Handlers.ProcessPasswordUpgrade(payload))))
  {
    hide Exec, Finish, B.Backend.Rest, B.Backend.View;
    if payload.Malformed? {
      return Failure(BadPayload);
    }
    var userId, newHash := payload.userId, payload.newHash;
    var found, user := b.FindByID(userId, Handling(m, Handlers.UpgradeFind(userId, newHash)));
    if user == null {
      return Failure(if found.Absent? then UserNotFound else Dependency);
    }
    if newHash == "" {
      return Failure(BadHash);
    }
    user.UpdatePassword(newHash, b.now);
    var updated := b.Update(user, Handling(m, Handlers.UpgradeUpdate(user.View())));
    out := if updated.Done? then Success(Nothing) else Failure(Dependency);
  }

  // ---------- Dispatch and consumption ----------

  method Handle(b: B.Backend, ghost m: nat, routingKey: string, message: Message) returns (out: Outcome)
    requires b.Valid() && routingKey == b.cfg.topology.keyOf(Name(message.event))
    modifies b
    ensures b.Valid()
    ensures b.Rest(Settling(m, out)) == old(b.Rest(OfHandler(m, Handlers.Handle(b.cfg, message))))
  {
    hide Exec, Finish, B.Backend.Rest, B.Backend.View;
    match JobFor(routingKey)
    case Registration => out := ProcessUserRegistration(b, m, message.payload);
    case RolesUpdate => out := ProcessRolesUpdate(b, m, message.payload);
    case Confirmation => out := SendConfirmation(b, m, message.payload);
    case ResetEmail => out := SendPasswordReset(b, m, message.payload);
    case Upgrade => out := ProcessPasswordUpgrade(b, m, message.payload);
    case Unknown => out := Success(Nothing);
  }

  /** One round of the consumer's loop: the message is acknowledged exactly when its handler returned
      without error, and goes back to the queue otherwise. */
  method Deliver(b: B.Backend, m: nat) returns (out: Outcome)
    requires b.Valid() && m in b.ready && m < |b.accepted|
    modifies b
    ensures b.Valid()
    ensures End(b.View(), out, b.n) == old(Do(b.cfg, b.View(), Delivery(m), b.env, b.n))
  {
    hide Exec, Finish;
    b.ready, b.unacked := b.ready - {m}, b.unacked + {m};
    var d := b.accepted[m];
    out := Handle(b, m, b.cfg.topology.keyOf(Name(d.event)), d);
    if out.Failure? {
      var requeued := b.Nack(m, Settling(m, out));
    } else {
      var acked := b.Ack(m, Settling(m, out));
    }
  }

  // ---------- The relay ----------

  method ProcessOutbox(b: B.Backend) returns (out: Outcome)
    requires b.Valid()
    modifies b
    ensures b.Valid()
    ensures End(b.View(), out, b.n) == old(b.Rest(Begin(b.cfg, Tick)))
  {
    hide Exec, Finish, B.Backend.Rest, B.Backend.View;
    ghost var goal := b.Rest(Begin(b.cfg, Tick));
    var selected := b.SelectBatch(Machine.Relay(Select));
    if !selected.Rows? {
      return Failure(Dependency);
    }
    var rows := selected.items;
    var eventsToMark: seq<nat> := [];
    for i := 0 to |rows|
      invariant b.Valid() && b.Rest(NextToPublish(rows[i..], eventsToMark)) == goal
    {
      assert rows[i..][1..] == rows[i + 1..];
      var published := b.Publish(rows[i], Machine.Relay(Publishing(rows[i..], eventsToMark)));
      if published.Done? {
        eventsToMark := eventsToMark + [rows[i].row];
      }
    }
    if eventsToMark == [] {
      return Success(Nothing);
    }
    var marked := b.Mark(eventsToMark, Machine.Relay(Marking(eventsToMark)));
    out := if marked.Done? then Success(Nothing) else Failure(Dependency);
  }
}

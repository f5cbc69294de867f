/** How messages get from the relay to the worker: the exchange and key they are published with, the
    queue's binding, and the worker's dispatch on the key. */
module Topology {
  import opened Text

  /** Topic matching by words separated by dots: section 3.1.3.3 of AMQP 0-9-1. */
  predicate MatchWords(pattern: seq<string>, words: seq<string>)
    decreases |pattern| + |words|
  {
    if pattern == [] then words == []
    else if pattern[0] == "#" then
      MatchWords(pattern[1..], words) || (words != [] && MatchWords(pattern, words[1..]))
    else
      words != [] && (pattern[0] == "*" || pattern[0] == words[0]) && MatchWords(pattern[1..], words[1..])
  }

  predicate TopicMatch(pattern: string, key: string) {
    MatchWords(Split(pattern, '.'), Split(key, '.'))
  }

  /** Without `#`, a pattern takes as many words as it has, each of which it names or leaves open. */
  lemma {:induction false} MatchesWordByWord(pattern: seq<string>, words: seq<string>)
    requires "#" !in pattern
    ensures MatchWords(pattern, words) <==>
              |pattern| == |words| && forall i :: 0 <= i < |words| ==> pattern[i] == "*" || pattern[i] == words[i]
  {
    if pattern != [] && words != [] {
      MatchesWordByWord(pattern[1..], words[1..]);
      assert pattern == [pattern[0]] + pattern[1..] && words == [words[0]] + words[1..];
    }
  }

  /** Where the words that one `#` takes begin and end. */
  predicate HashTakes(before: seq<string>, after: seq<string>, words: seq<string>, from: int, to: int) {
    0 <= from <= to <= |words| && MatchWords(before, words[..from]) && MatchWords(after, words[to..])
  }

  /** A `#` takes any number of words, none included. */
  lemma {:induction false} HashTakesAnyNumber(before: seq<string>, after: seq<string>, words: seq<string>)
    requires "#" !in before
    ensures MatchWords(before + ["#"] + after, words) <==> exists i, j :: HashTakes(before, after, words, i, j)
    decreases |before| + |words|
  {
    var pattern := before + ["#"] + after;
    if before == [] {
      assert pattern == ["#"] + after;
      HashComesFirst(after, words);
      if i, j :| HashTakes(before, after, words, i, j) {
        assert HashTakes([], after, words, 0, j);
      }
    } else {
      assert pattern[0] == before[0] && pattern[1..] == before[1..] + ["#"] + after;
      if words != [] {
        HashTakesAnyNumber(before[1..], after, words[1..]);
        HashShifts(before, after, words);
      }
    }
  }

  lemma HashShifts(before: seq<string>, after: seq<string>, words: seq<string>)
    requires before != [] && before[0] != "#" && words != []
    ensures (exists i, j :: HashTakes(before, after, words, i, j)) <==>
              (before[0] == "*" || before[0] == words[0])
              && exists i, j :: HashTakes(before[1..], after, words[1..], i, j)
  {
    var rest := words[1..];
    if i, j :| HashTakes(before, after, words, i, j) {
      assert i > 0;
      assert words[..i][1..] == rest[..i - 1] && words[j..] == rest[j - 1..];
      assert HashTakes(before[1..], after, rest, i - 1, j - 1);
    }
    if (before[0] == "*" || before[0] == words[0]) && exists i, j :: HashTakes(before[1..], after, rest, i, j) {
      var i, j :| HashTakes(before[1..], after, rest, i, j);
      assert words[..i + 1][1..] == rest[..i] && words[j + 1..] == rest[j..] && words[..i + 1][0] == words[0];
      assert HashTakes(before, after, words, i + 1, j + 1);
    }
  }

  lemma {:induction false} HashComesFirst(after: seq<string>, words: seq<string>)
    ensures MatchWords(["#"] + after, words) <==> exists j :: HashTakes([], after, words, 0, j)
    decreases |words|
  {
    assert (["#"] + after)[1..] == after && words[0..] == words && words[..0] == [];
    if words != [] {
      HashComesFirst(after, words[1..]);
      var rest := words[1..];
      if j :| HashTakes([], after, rest, 0, j) {
        assert rest[j..] == words[j + 1..];
        assert HashTakes([], after, words, 0, j + 1);
      }
      if j :| HashTakes([], after, words, 0, j) && j > 0 {
        assert rest[j - 1..] == words[j..] && rest[..0] == [];
        assert HashTakes([], after, rest, 0, j - 1);
      }
      if MatchWords(after, words) {
        assert HashTakes([], after, words, 0, 0);
      }
    } else if MatchWords(after, words) {
      assert HashTakes([], after, words, 0, 0);
    }
  }

  /** The types the outbox table holds. */
  datatype EventType = RegisterCommand | RolesCommand | UserRegistered | ForgotPassword | PasswordUpgrade

  function Name(e: EventType): string {
    match e
    case RegisterCommand => "user.register"
    case RolesCommand => "user.update_roles"
    case UserRegistered => "UserRegistered"
    case ForgotPassword => "UserForgotPasswordRequested"
    case PasswordUpgrade => "UserPasswordUpgradeRequested"
  }

  datatype Job = Registration | RolesUpdate | Confirmation | ResetEmail | Upgrade | Unknown

  /** The worker's switch on the routing key. */
  function JobFor(key: string): Job {
    if key == "user.register" then Registration
    else if key == "user.update_roles" then RolesUpdate
    else if key == "user.UserRegistered" then Confirmation
    else if key == "user.UserForgotPasswordRequested" then ResetEmail
    else if key == "user.UserPasswordUpgradeRequested" then Upgrade
    else Unknown
  }

  /** The switch, key by key: the two commands under their own names, the three events with the prefix, and no other
      key. */
  lemma SwitchedExactly(key: string)
    ensures JobFor("user.register") == Registration && JobFor("user.update_roles") == RolesUpdate
    ensures JobFor("user.UserRegistered") == Confirmation
    ensures JobFor("user.UserForgotPasswordRequested") == ResetEmail
    ensures JobFor("user.UserPasswordUpgradeRequested") == Upgrade
    ensures key != "user.register" && key != "user.update_roles" && key != "user.UserRegistered"
            && key != "user.UserForgotPasswordRequested" && key != "user.UserPasswordUpgradeRequested" ==>
              JobFor(key) == Unknown
  {
    hide JobFor;
    CommandsSwitched();
    JobForForgot();
    JobForUpgrade();
    OthersUnknown(key);
  }

  lemma CommandsSwitched()
    ensures JobFor("user.register") == Registration && JobFor("user.update_roles") == RolesUpdate
    ensures JobFor("user.UserRegistered") == Confirmation
  {
    ShorterKeys();
  }

  lemma OthersUnknown(key: string)
    ensures key != "user.register" && key != "user.update_roles" && key != "user.UserRegistered"
            && key != "user.UserForgotPasswordRequested" && key != "user.UserPasswordUpgradeRequested" ==>
              JobFor(key) == Unknown
  {
  }

  /** The job each event type is meant for. */
  function MeantFor(e: EventType): Job {
    match e
    case RegisterCommand => Registration
    case RolesCommand => RolesUpdate
    case UserRegistered => Confirmation
    case ForgotPassword => ResetEmail
    case PasswordUpgrade => Upgrade
  }

  datatype Topology = Topology(
    publishExchange: string,     // the exchange the relay publishes to
    keyOf: string -> string,     // the routing key it makes of an event type
    boundExchange: string,       // the exchange the worker's queue is bound to
    binding: string)             // and the pattern it is bound with
  {
    /** A message of this event type reaches the queue. */
    predicate Routes(e: EventType) {
      publishExchange == boundExchange && TopicMatch(binding, keyOf(Name(e)))
    }

    /** The job the worker runs for a message of this event type. */
    function JobOf(e: EventType): Job {
      JobFor(keyOf(Name(e)))
    }

    /** Of the events that reach the queue, only those that carry the identifier of a stored user
        reach a job that stores a token for it. */
    predicate TokensFromUserEvents() {
      forall e :: Routes(e) && (JobOf(e).Confirmation? || JobOf(e).ResetEmail?) ==>
          e.UserRegistered? || e.ForgotPassword?
    }
  }

  /** The topology the program is configured with. */
  const CONFIGURED := Topology("auth.events", t => "user." + t, "auth.commands", "user.*")

  lemma SplitWord(word: string)
    requires '.' !in word
    ensures Split("user." + word, '.') == ["user", word]
  {
    assert "user." + word == "user" + ['.'] + word;
    SplitFirst("user", word, '.');
    SplitField(word, '.');
  }

  /** The binding takes a prefixed name exactly when the name itself has no dot. */
  lemma BindingTakesExactly(name: string)
    ensures TopicMatch("user.*", "user." + name) <==> '.' !in name
  {
    SplitWord("*");
    assert "user." + "*" == "user.*";
    assert "user." + name == "user" + ['.'] + name;
    SplitFirst("user", name, '.');
    var rest := Split(name, '.');
    assert (["user"] + rest)[1..] == rest;
    assert ["user", "*"][1..] == ["*"] && ["*"][1..] == [];
    assert MatchWords(["*"], rest) <==> |rest| == 1;
    JoinSplit(name, '.');
    if '.' !in name {
      SplitField(name, '.');
    }
  }

  /** As configured, nothing the relay publishes reaches the worker's queue. */
  lemma ConfiguredRoutesNothing(e: EventType)
    ensures CONFIGURED.publishExchange == "auth.events" && CONFIGURED.boundExchange == "auth.commands"
    ensures !CONFIGURED.Routes(e)
  {
  }

  /** The two commands, whose names carry the prefix already. */
  predicate Prefixed(e: EventType) {
    e.RegisterCommand? || e.RolesCommand?
  }

  lemma JobOfPrefixed(e: EventType)
    ensures JobFor("user." + Name(e)) == (if Prefixed(e) then Unknown else MeantFor(e))
    ensures '.' in Name(e) <==> Prefixed(e)
  {
    match e
    case RegisterCommand => PrefixedRegister();
    case RolesCommand => PrefixedRoles();
    case UserRegistered => assert "user." + Name(e) == "user.UserRegistered";
    case ForgotPassword => PrefixedForgot();
    case PasswordUpgrade => PrefixedUpgrade();
  }

  lemma PrefixedRegister()
    ensures JobFor("user." + Name(RegisterCommand)) == Unknown && '.' in Name(RegisterCommand)
  {
    assert Name(RegisterCommand)[4] == '.';
    assert |"user." + Name(RegisterCommand)| == 18;
  }

  lemma PrefixedRoles()
    ensures JobFor("user." + Name(RolesCommand)) == Unknown && '.' in Name(RolesCommand)
  {
    assert Name(RolesCommand)[4] == '.';
    assert |"user." + Name(RolesCommand)| == 22;
  }

  lemma PrefixedForgot()
    ensures JobFor("user." + Name(ForgotPassword)) == ResetEmail && '.' !in Name(ForgotPassword)
  {
    hide JobFor;
    KeyOfForgot();
    JobForForgot();
  }

  lemma KeyOfForgot()
    ensures "user." + Name(ForgotPassword) == "user.UserForgotPasswordRequested"
    ensures '.' !in Name(ForgotPassword)
  {
    NoDotInForgot();
  }

  lemma NoDotInForgot()
    ensures '.' !in Name(ForgotPassword)
  {
  }

  lemma JobForForgot()
    ensures JobFor("user.UserForgotPasswordRequested") == ResetEmail
  {
    ShorterKeys();
    assert |"user.UserForgotPasswordRequested"| == 32;
  }

  lemma ShorterKeys()
    ensures |"user.register"| == 13 && |"user.update_roles"| == 17 && |"user.UserRegistered"| == 19
  {
  }

  lemma PrefixedUpgrade()
    ensures JobFor("user." + Name(PasswordUpgrade)) == Upgrade && '.' !in Name(PasswordUpgrade)
  {
    hide JobFor;
    KeyOfUpgrade();
    JobForUpgrade();
  }

  lemma KeyOfUpgrade()
    ensures "user." + Name(PasswordUpgrade) == "user.UserPasswordUpgradeRequested"
    ensures '.' !in Name(PasswordUpgrade)
  {
    NoDotInUpgrade();
  }

  lemma NoDotInUpgrade()
    ensures '.' !in Name(PasswordUpgrade)
  {
  }

  lemma JobForUpgrade()
    ensures JobFor("user.UserPasswordUpgradeRequested") == Upgrade
  {
    ShorterKeys();
    assert |"user.UserForgotPasswordRequested"| == 32;
    assert |"user.UserPasswordUpgradeRequested"| == 33;
  }

  /** The key under which each event is published as configured, and the job that the worker's switch runs for it:
      the commands get the prefix twice. */
  lemma PublishedAs(e: EventType)
    ensures var key, job := CONFIGURED.keyOf(Name(e)), CONFIGURED.JobOf(e);
            match e
            case RegisterCommand => key == "user.user.register" && job == Unknown
            case RolesCommand => key == "user.user.update_roles" && job == Unknown
            case UserRegistered => key == "user.UserRegistered" && job == Confirmation
            case ForgotPassword => key == "user.UserForgotPasswordRequested" && job == ResetEmail
            case PasswordUpgrade => key == "user.UserPasswordUpgradeRequested" && job == Upgrade
  {
    hide JobFor, Name;
    JobOfPrefixed(e);
    KeysOf();
  }

  lemma KeysOf()
    ensures "user." + Name(RegisterCommand) == "user.user.register"
    ensures "user." + Name(RolesCommand) == "user.user.update_roles"
    ensures "user." + Name(UserRegistered) == "user.UserRegistered"
    ensures "user." + Name(ForgotPassword) == "user.UserForgotPasswordRequested"
    ensures "user." + Name(PasswordUpgrade) == "user.UserPasswordUpgradeRequested"
  {
    KeyOfForgot();
    KeyOfUpgrade();
  }

  /** With the two exchanges made the same, exactly the three events whose names carry no prefix reach
      the job they are meant for; the registration and roles commands still reach none. */
  lemma PrefixingDeliversExactly(t: Topology, e: EventType)
    requires t.publishExchange == t.boundExchange && t.binding == "user.*"
    requires t.keyOf == CONFIGURED.keyOf
    ensures t.Routes(e) && t.JobOf(e) == MeantFor(e) <==> !Prefixed(e)
  {
    BindingTakesExactly(Name(e));
    JobOfPrefixed(e);
  }

  /** The configured key mapping keeps token-storing jobs to events about stored users, whatever the
      exchanges and the binding. */
  lemma PrefixingTokensFromUserEvents(t: Topology)
    requires t.keyOf == CONFIGURED.keyOf
    ensures t.TokensFromUserEvents()
  {
    forall e
      ensures t.JobOf(e) == (if Prefixed(e) then Unknown else MeantFor(e))
    {
      JobOfPrefixed(e);
    }
  }
}

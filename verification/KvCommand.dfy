/** Commands that Raft replicates, and what applying them does to the engine. */
module KvCommand {
  import opened Basics
  import opened Codec
  import opened KvEngine

  // ---- Printing ----

  function EncodePut(key: Text, value: Text): Text {
    "PUT" + " " + HexEncode(key) + " " + HexEncode(value)
  }

  function EncodeDelete(key: Text): Text {
    "DELETE" + " " + HexEncode(key)
  }

  function EncodeMutation(mu: Mutation): Text {
    " " + (if mu.kind == Put then "P" else "D") + " " + HexEncode(mu.key) + " " + HexOrDash(mu.value)
  }

  function EncodeMutations(mus: seq<Mutation>): Text {
    if mus == [] then "" else EncodeMutation(mus[0]) + EncodeMutations(mus[1..])
  }

  function EncodeBatch(mus: seq<Mutation>): Text {
    "BATCH" + " " + Dec(|mus|) + EncodeMutations(mus)
  }

  // ---- Parsing ----

  /** One turn of the batch loop: kind, key and value words, of which missing ones read as empty. */
  function ReadMutation(ws: seq<Text>): Result<Mutation> {
    match HexDecode(Nth(ws, 1))
    case Failure(e) => Failure(e)
    case Success(key) =>
      match (if Nth(ws, 2) == "-" then Success("") else HexDecode(Nth(ws, 2)))
      case Failure(e) => Failure(e)
      case Success(value) => Success(Mutation(if Nth(ws, 0) == "P" then Put else Delete, key, value))
  }

  function Skip(ws: seq<Text>, n: nat): seq<Text> {
    if n <= |ws| then ws[n..] else []
  }

  function ReadMutations(ws: seq<Text>, count: nat): Result<seq<Mutation>>
    decreases count
  {
    if count == 0 then Success([])
    else
      match ReadMutation(ws)
      case Failure(e) => Failure(e)
      case Success(mu) =>
        match ReadMutations(Skip(ws, 3), count - 1)
        case Failure(e) => Failure(e)
        case Success(rest) => Success([mu] + rest)
  }

  /** The mutations a command stands for. A count that is missing or not a number reads as 0. */
  function ParseCommand(command: Text): Result<seq<Mutation>> {
    var ws := Words(command);
    if Nth(ws, 0) == "PUT" then
      match (HexDecode(Nth(ws, 1)), HexDecode(Nth(ws, 2)))
      case (Success(key), Success(value)) => Success([Mutation(Put, key, value)])
      case _ => Failure(InvalidArgument)
    else if Nth(ws, 0) == "DELETE" then
      match HexDecode(Nth(ws, 1))
      case Success(key) => Success([Mutation(Delete, key, "")])
      case Failure(e) => Failure(e)
    else if Nth(ws, 0) == "BATCH" then
      ReadMutations(Skip(ws, 2), match ParseDec(Nth(ws, 1)) case Success(n) => n case Failure(_) => 0)
    else Failure(InvalidArgument)
  }

  /** The engine after a command; a command that does not parse changes nothing. */
  function Execute(m: Store, command: Text): Store {
    match ParseCommand(command)
    case Success(mus) => MutateAll(m, mus)
    case Failure(_) => m
  }

  // ---- Round trips ----

  lemma HexWord(s: Text)
    ensures NoSpace(HexEncode(s)) && (HexEncode(s) == "" <==> s == "") && HexEncode(s) != "-"
    ensures HexDecode(HexEncode(s)) == Success(s)
  {
    HexRoundTrip(s);
    assert |HexEncode(s)| == 2 * |s|;
  }

  lemma PutWords(key: Text, value: Text)
    ensures Words(EncodePut(key, value)) == ["PUT"] + Flush(HexEncode(key)) + Flush(HexEncode(value))
  {
    hide HexEncode, Words;
    var rest := HexEncode(key) + " " + HexEncode(value);
    Associate("PUT" + " ", HexEncode(key) + " ", HexEncode(value));
    Associate("PUT" + " ", HexEncode(key), " ");
    WordsCons("PUT", rest);
    WordsCons(HexEncode(key), HexEncode(value));
    WordsOne(HexEncode(value));
  }

  /** A put command parses back to itself unless the key is empty and the value is not: then the value is taken
      for the key. */
  lemma PutRoundTrip(key: Text, value: Text)
    ensures ParseCommand(EncodePut(key, value)) == Success([Mutation(Put, key, value)]) <==> key != "" || value == ""
    ensures key == "" && value != "" ==> ParseCommand(EncodePut(key, value)) == Success([Mutation(Put, value, "")])
  {
    PutWords(key, value);
    HexWord(key);
    HexWord(value);
  }

  /** A delete command parses back to itself for every key. */
  lemma DeleteRoundTrip(key: Text)
    ensures ParseCommand(EncodeDelete(key)) == Success([Mutation(Delete, key, "")])
  {
    WordsCons("DELETE", HexEncode(key));
    WordsOne(HexEncode(key));
    HexWord(key);
  }

  function MutationWords(mu: Mutation): seq<Text> {
    [if mu.kind == Put then "P" else "D"] + Flush(HexEncode(mu.key)) + [HexOrDash(mu.value)]
  }

  function BatchWords(mus: seq<Mutation>): seq<Text> {
    if mus == [] then [] else MutationWords(mus[0]) + BatchWords(mus[1..])
  }

  lemma MutationTail(w: Text, mus: seq<Mutation>)
    requires mus != []
    ensures var mu := mus[0];
            var kind: Text := if mu.kind == Put then "P" else "D";
            w + EncodeMutations(mus)
            == w + " " + (kind + " " + (HexEncode(mu.key) + " " + (HexOrDash(mu.value) + EncodeMutations(mus[1..]))))
  {
    hide HexEncode, HexOrDash;
    var mu := mus[0];
    var kind: Text := if mu.kind == Put then "P" else "D";
    var h, v, rest := HexEncode(mu.key), HexOrDash(mu.value), EncodeMutations(mus[1..]);
    Nested(w, kind, h, v, rest);
  }

  lemma Nested(w: Text, kind: Text, h: Text, v: Text, rest: Text)
    ensures w + (" " + kind + " " + h + " " + v + rest) == w + " " + (kind + " " + (h + " " + (v + rest)))
  {}

  /** A mutation is printed after a word and leaves a word behind, so the words of a batch follow each other. */
  lemma {:induction false} BatchTail(w: Text, mus: seq<Mutation>)
    requires NoSpace(w) && w != ""
    ensures Words(w + EncodeMutations(mus)) == [w] + BatchWords(mus)
    decreases |mus|
  {
    hide Words, HexEncode, HexOrDash, EncodeMutation;
    if mus == [] {
      assert w + EncodeMutations(mus) == w;
      WordsOne(w);
      assert [w] + BatchWords(mus) == [w];
    } else {
      var mu := mus[0];
      var kind: Text := if mu.kind == Put then "P" else "D";
      var tail := HexOrDash(mu.value) + EncodeMutations(mus[1..]);
      var body := HexEncode(mu.key) + " " + tail;
      MutationTail(w, mus);
      WordsCons(w, kind + " " + body);
      WordsCons(kind, body);
      WordsCons(HexEncode(mu.key), tail);
      BatchTail(HexOrDash(mu.value), mus[1..]);
      Regroup([kind], Flush(HexEncode(mu.key)), [HexOrDash(mu.value)], BatchWords(mus[1..]));
    }
  }

  lemma Regroup(a: seq<Text>, b: seq<Text>, c: seq<Text>, d: seq<Text>)
    ensures a + (b + (c + d)) == (a + b + c) + d
  {}

  lemma TwoWords(head: Text, w: Text, tail: Text, ws: seq<Text>)
    requires NoSpace(head) && head != "" && Words(w + tail) == [w] + ws
    ensures Words(head + " " + w + tail) == [head, w] + ws
  {
    hide Words;
    Associate(head + " ", w, tail);
    WordsCons(head, w + tail);
  }

  lemma BatchCommandWords(mus: seq<Mutation>)
    ensures Words(EncodeBatch(mus)) == ["BATCH", Dec(|mus|)] + BatchWords(mus)
  {
    hide Words, Dec, EncodeMutations, BatchWords;
    BatchTail(Dec(|mus|), mus);
    TwoWords("BATCH", Dec(|mus|), EncodeMutations(mus), BatchWords(mus));
  }

  lemma MutationRead(mu: Mutation, rest: seq<Text>)
    ensures mu.key != "" ==>
              ReadMutation(MutationWords(mu) + rest) == Success(mu) && Skip(MutationWords(mu) + rest, 3) == rest
    ensures mu.key == "" ==>
              var r := ReadMutation(MutationWords(mu) + rest); r.Failure? || r.value.key != ""
  {
    HexWord(mu.key);
    HexWord(mu.value);
    var ws := MutationWords(mu) + rest;
    if mu.key == "" {
      assert ws[1] == HexOrDash(mu.value);
    } else {
      assert ws[1] == HexEncode(mu.key) && ws[2] == HexOrDash(mu.value);
      assert ws[3..] == rest;
    }
  }

  lemma KeysNonEmptyCons(mus: seq<Mutation>)
    requires mus != []
    ensures KeysNonEmpty(mus) <==> mus[0].key != "" && KeysNonEmpty(mus[1..])
  {
    assert forall i :: 0 < i < |mus| ==> mus[i] == mus[1..][i - 1];
    assert forall i :: 0 <= i < |mus[1..]| ==> mus[1..][i] == mus[i + 1];
  }

  lemma {:induction false} BatchRead(mus: seq<Mutation>)
    ensures ReadMutations(BatchWords(mus), |mus|) == Success(mus) <==> KeysNonEmpty(mus)
    decreases |mus|
  {
    if mus != [] {
      hide ReadMutation, MutationWords, Skip, KeysNonEmpty;
      MutationRead(mus[0], BatchWords(mus[1..]));
      BatchRead(mus[1..]);
      KeysNonEmptyCons(mus);
      var r := ReadMutations(BatchWords(mus), |mus|);
      var rest := ReadMutations(BatchWords(mus[1..]), |mus| - 1);
      assert [mus[0]] + mus[1..] == mus;
      if mus[0].key != "" {
        assert rest.Success? ==> r.Success? && r.value[0] == mus[0] && r.value[1..] == rest.value;
      } else {
        assert r.Success? ==> r.value != [] && r.value[0].key != "";
      }
    }
  }

  /** A batch command parses back to itself exactly when none of its keys is empty. */
  lemma BatchRoundTrip(mus: seq<Mutation>)
    ensures ParseCommand(EncodeBatch(mus)) == Success(mus) <==> KeysNonEmpty(mus)
  {
    BatchCommandWords(mus);
    BatchRead(mus);
    var ws := ["BATCH", Dec(|mus|)] + BatchWords(mus);
    assert ws[2..] == BatchWords(mus) && ws[0] == "BATCH" && ws[1] == Dec(|mus|);
  }

  /** A batch with an empty key and an empty value cannot be applied at all. */
  lemma EmptyKeyBatchFails()
    ensures ParseCommand(EncodeBatch([Mutation(Put, "", "")])).Failure?
  {
    var mu := Mutation(Put, "", "");
    BatchCommandWords([mu]);
    assert BatchWords([mu]) == ["P", "-"];
    var ws := Words(EncodeBatch([mu]));
    assert Skip(ws, 2) == ["P", "-"];
    assert ReadMutation(["P", "-"]).Failure?;
  }

  // ---- Loops ----

  method PrintBatch(mus: seq<Mutation>) returns (command: Text)
    ensures command == EncodeBatch(mus)
  {
    hide Dec, EncodeMutation;
    command := "BATCH" + " " + Dec(|mus|);
    var i := 0;
    assert mus[0..] == mus;
    while i < |mus|
      invariant 0 <= i <= |mus|
      invariant command + EncodeMutations(mus[i..]) == EncodeBatch(mus)
    {
      assert mus[i..][0] == mus[i] && mus[i..][1..] == mus[i + 1..];
      Associate(command, EncodeMutation(mus[i]), EncodeMutations(mus[i + 1..]));
      command := command + EncodeMutation(mus[i]);
      i := i + 1;
    }
    assert mus[i..] == [];
  }

  /** `ApplyKvCommand`: parse, then one write of the whole batch. */
  method ApplyKvCommand(engine: FileKvEngine, command: Text) returns (status: Status)
    modifies engine
    ensures engine.data == Execute(old(engine.data), command)
    ensures status == match ParseCommand(command) case Success(_) => Ok case Failure(e) => Error(e)
    ensures status != Ok ==> engine.lines == old(engine.lines)
    ensures old(engine.Durable()) && (ParseCommand(command).Success? ==> KeysNonEmpty(ParseCommand(command).value)) ==> engine.Durable()
  {
    hide Words, HexDecode;
    var ws := Words(command);
    if Nth(ws, 0) == "BATCH" {
      var count := match ParseDec(Nth(ws, 1)) case Success(n) => n case Failure(_) => 0;
      var mus: seq<Mutation> := [];
      var rest := Skip(ws, 2);
      var i := 0;
      PrependNone(ReadMutations(rest, count));
      while i < count
        invariant 0 <= i <= count
        invariant engine.data == old(engine.data) && engine.lines == old(engine.lines)
        invariant ReadMutations(Skip(ws, 2), count) == Prepend(mus, ReadMutations(rest, count - i))
      {
        var mu := ReadMutation(rest);
        if mu.Failure? {
          return Error(mu.code);
        }
        PrependMore(mus, mu.value, ReadMutations(Skip(rest, 3), count - i - 1));
        mus := mus + [mu.value];
        rest := Skip(rest, 3);
        i := i + 1;
      }
      assert mus + [] == mus;
      engine.WriteBatch(mus);
      return Ok;
    }
    match ParseCommand(command)
    case Success(mus) =>
      engine.WriteBatch(mus);
      return Ok;
    case Failure(e) =>
      return Error(e);
  }

  lemma PrependNone(r: Result<seq<Mutation>>)
    ensures Prepend([], r) == r
  {
    assert r.Success? ==> [] + r.value == r.value;
  }

  lemma PrependMore(mus: seq<Mutation>, mu: Mutation, r: Result<seq<Mutation>>)
    ensures Prepend(mus, Prepend([mu], r)) == Prepend(mus + [mu], r)
  {
    assert r.Success? ==> mus + ([mu] + r.value) == mus + [mu] + r.value;
  }
}

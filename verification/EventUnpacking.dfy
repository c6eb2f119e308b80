// UnpackEvent: the fields of an event from the topics and the data of its log. The log's
// values stand for their encodings, which the ABI library decodes.
module EventUnpacking {
  import opened Words

  // A declared input of an event: an indexed one is a topic, all others are in the data.
  datatype Input = Input(name: string, indexed: bool)

  type Fields = map<string, Bytes>

  function Names(inputs: seq<Input>, indexed: bool): seq<string> {
    if inputs == [] then []
    else
      var rest, last := Names(inputs[..|inputs| - 1], indexed), inputs[|inputs| - 1];
      if last.indexed == indexed then rest + [last.name] else rest
  }

  // The fields of these names get these values, in order.
  function Fill(out: Fields, names: seq<string>, values: seq<Bytes>): Fields
    requires |names| == |values|
  {
    if names == [] then out
    else Fill(out, names[..|names| - 1], values[..|values| - 1])[names[|names| - 1] := values[|values| - 1]]
  }

  // None is an error of the library, or a panic on a log without topics.
  function Unpack(out: Fields, inputs: seq<Input>, topics: seq<Bytes>, data: seq<Bytes>): Option<Fields> {
    var inData, inTopics := Names(inputs, false), Names(inputs, true);
    if (data != [] && |data| != |inData|) || topics == [] || |topics| - 1 != |inTopics| then None
    else
      var filled := if data == [] then out else Fill(out, inData, data);
      Some(Fill(filled, inTopics, topics[1..]))
  }

  method UnpackEvent(out: Fields, inputs: seq<Input>, topics: seq<Bytes>, data: seq<Bytes>)
    returns (r: Option<Fields>)
    ensures r == Unpack(out, inputs, topics, data)
  {
    var fields := out;
    if |data| > 0 {
      var inData := Names(inputs, false);
      if |data| != |inData| {
        return None;
      }
      fields := Fill(fields, inData, data);
    }
    var indexed: seq<string> := [];
    for i := 0 to |inputs|
      invariant indexed == Names(inputs[..i], true)
    {
      assert inputs[..i + 1][..i] == inputs[..i];
      if inputs[i].indexed {
        indexed := indexed + [inputs[i].name];
      }
    }
    assert inputs[..|inputs|] == inputs;
    if topics == [] || |topics| - 1 != |indexed| {
      return None;
    }
    return Some(Fill(fields, indexed, topics[1..]));
  }

  // ---------- the log of an event ----------

  function Values(event: Fields, names: seq<string>): (values: seq<Bytes>)
    requires forall i :: 0 <= i < |names| ==> names[i] in event
    ensures |values| == |names|
  {
    seq(|names|, i requires 0 <= i < |names| => event[names[i]])
  }

  ghost predicate EventOf(event: Fields, inputs: seq<Input>) {
    && (forall i :: 0 <= i < |inputs| ==> inputs[i].name in event)
    && (forall name :: name in event ==> exists i :: 0 <= i < |inputs| && inputs[i].name == name)
  }

  lemma {:induction false} NamesAreInputs(inputs: seq<Input>, indexed: bool, name: string)
    ensures name in Names(inputs, indexed) <==> Input(name, indexed) in inputs
  {
    if inputs != [] {
      NamesAreInputs(inputs[..|inputs| - 1], indexed, name);
      assert inputs == inputs[..|inputs| - 1] + [inputs[|inputs| - 1]];
    }
  }

  lemma NamesInEvent(event: Fields, inputs: seq<Input>, indexed: bool)
    requires EventOf(event, inputs)
    ensures forall i :: 0 <= i < |Names(inputs, indexed)| ==> Names(inputs, indexed)[i] in event
  {
    var names := Names(inputs, indexed);
    forall i | 0 <= i < |names|
      ensures names[i] in event
    {
      NamesAreInputs(inputs, indexed, names[i]);
    }
  }

  // Each named field gets its value of the event; all others stay.
  lemma {:induction false} FillRestores(out: Fields, event: Fields, names: seq<string>)
    requires forall i :: 0 <= i < |names| ==> names[i] in event
    ensures var r := Fill(out, names, Values(event, names));
      && (forall name :: name in r <==> name in out || name in names)
      && (forall name :: name in r ==> r[name] == if name in names then event[name] else out[name])
  {
    if names != [] {
      var others := names[..|names| - 1];
      FillRestores(out, event, others);
      assert names == others + [names[|names| - 1]];
      assert Values(event, names)[..|names| - 1] == Values(event, others);
    }
  }

  // Unpacking the log of an event restores every field of it, whatever was in the output.
  lemma UnpackRestores(out: Fields, event: Fields, inputs: seq<Input>, signature: Bytes)
    requires EventOf(event, inputs)
    ensures forall i :: 0 <= i < |Names(inputs, true)| ==> Names(inputs, true)[i] in event
    ensures forall i :: 0 <= i < |Names(inputs, false)| ==> Names(inputs, false)[i] in event
    ensures Unpack(out, inputs, [signature] + Values(event, Names(inputs, true)), Values(event, Names(inputs, false)))
         == Some(out + event)
  {
    hide Fill, Names;
    NamesInEvent(event, inputs, true);
    NamesInEvent(event, inputs, false);
    var inData, inTopics := Names(inputs, false), Names(inputs, true);
    var topics := [signature] + Values(event, inTopics);
    assert topics[1..] == Values(event, inTopics);
    var filled := if Values(event, inData) == [] then out else Fill(out, inData, Values(event, inData));
    FilledFromData(out, event, inData);
    FillRestores(filled, event, inTopics);
    EventNames(event, inputs);
    SameFields(out, event, filled, Fill(filled, inTopics, Values(event, inTopics)), inData, inTopics);
  }

  lemma FilledFromData(out: Fields, event: Fields, names: seq<string>)
    requires forall i :: 0 <= i < |names| ==> names[i] in event
    ensures var r := if Values(event, names) == [] then out else Fill(out, names, Values(event, names));
      && (forall name :: name in r <==> name in out || name in names)
      && (forall name :: name in r ==> r[name] == if name in names then event[name] else out[name])
  {
    FillRestores(out, event, names);
  }

  lemma EventNames(event: Fields, inputs: seq<Input>)
    requires EventOf(event, inputs)
    ensures forall name :: name in event <==> name in Names(inputs, false) || name in Names(inputs, true)
  {
    hide Names;
    forall name
      ensures name in event <==> name in Names(inputs, false) || name in Names(inputs, true)
    {
      NamesAreInputs(inputs, true, name);
      NamesAreInputs(inputs, false, name);
      if name in event {
        var i :| 0 <= i < |inputs| && inputs[i].name == name;
        assert inputs[i] in inputs;
        assert inputs[i] == Input(name, inputs[i].indexed);
      }
    }
  }

  lemma SameFields(out: Fields, event: Fields, filled: Fields, r: Fields, inData: seq<string>, inTopics: seq<string>)
    requires forall name :: name in event <==> name in inData || name in inTopics
    requires forall name :: name in filled <==> name in out || name in inData
    requires forall name :: name in filled ==> filled[name] == if name in inData then event[name] else out[name]
    requires forall name :: name in r <==> name in filled || name in inTopics
    requires forall name :: name in r ==> r[name] == if name in inTopics then event[name] else filled[name]
    ensures r == out + event
  {
    assert r.Keys == (out + event).Keys;
  }

  // A log is taken exactly if it has a signature topic, a topic for each indexed input, and
  // either no data at all or a value for each other input.
  lemma UnpackTakesIff(out: Fields, inputs: seq<Input>, topics: seq<Bytes>, data: seq<Bytes>)
    ensures Unpack(out, inputs, topics, data).Some? <==>
      && |topics| == 1 + |Names(inputs, true)|
      && (data == [] || |data| == |inputs| - |Names(inputs, true)|)
  {
    hide Fill;
    NamesCount(inputs);
  }

  lemma {:induction false} NamesCount(inputs: seq<Input>)
    ensures |Names(inputs, true)| + |Names(inputs, false)| == |inputs|
  {
    if inputs != [] {
      NamesCount(inputs[..|inputs| - 1]);
    }
  }

  // A log whose data are missing is taken all the same: the fields that should be in the
  // data keep what the output held before.
  lemma MissingDataGoUnnoticed(out: Fields, event: Fields, inputs: seq<Input>, signature: Bytes)
    requires EventOf(event, inputs)
    ensures forall i :: 0 <= i < |Names(inputs, true)| ==> Names(inputs, true)[i] in event
    ensures var r := Unpack(out, inputs, [signature] + Values(event, Names(inputs, true)), []);
      && r.Some?
      && forall name :: name in r.value && Input(name, true) !in inputs ==> name in out && r.value[name] == out[name]
  {
    hide Names, Fill;
    NamesInEvent(event, inputs, true);
    var inTopics := Names(inputs, true);
    assert ([signature] + Values(event, inTopics))[1..] == Values(event, inTopics);
    FillRestores(out, event, inTopics);
    forall name
      ensures name in inTopics <==> Input(name, true) in inputs
    {
      NamesAreInputs(inputs, true, name);
    }
  }
}

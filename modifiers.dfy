/**
 * Style and modifier selection: the fixed `model_map` from style names to
 * model ids, the fixed `lora_map` from modifier names to modifier ids, and the
 * loop that builds the `loras` dictionary from the modifiers the user ticked.
 */
module Modifiers {

  /** The six styles the selector offers and the model each one selects. */
  const ModelMap: map<string, string> := map[
    "3D Animated A" := "cartoon_v2",
    "3D Animated B" := "3d_cartoon",
    "3D Animated C" := "cartoon",
    "2D Cartoon" := "dark-sushi-mix",
    "RPG" := "aZovyaRPGArtistTools_v3",
    "Anime" := "toonyou_beta3"]

  /** One entry of `lora_map`: the name shown next to the checkbox and the id sent. */
  datatype Modifier = Modifier(name: string, id: string)

  /** `lora_map`, in its insertion order (the order of the loop). */
  const LoraMap: seq<Modifier> := [
    Modifier("Low Lighting", "LowRA"),
    Modifier("Simple Animation", "coolkids_v2.5"),
    Modifier("Pixelated", "pixelart"),
    Modifier("Pig Tails", "pigtail_hairstyle"),
    Modifier("Steampunk", "steampunkschematics")]

  /** A modifier together with the user's answers: whether its checkbox is
      ticked and the value of its strength slider. */
  datatype Choice<V> = Choice(name: string, id: string, selected: bool, value: V)

  /** The ids of `lora_map`. */
  function LoraIds(): (ids: set<string>)
    ensures forall i :: 0 <= i < |LoraMap| ==> LoraMap[i].id in ids
    ensures forall id :: id in ids ==> exists i :: 0 <= i < |LoraMap| && LoraMap[i].id == id
  {
    set i | 0 <= i < |LoraMap| :: LoraMap[i].id
  }

  /** The user's answers laid over `lora_map`, one per modifier, in order. */
  function Choices<V>(checked: seq<bool>, values: seq<V>): (c: seq<Choice<V>>)
    requires |checked| == |LoraMap| && |values| == |LoraMap|
    ensures |c| == |LoraMap|
    ensures forall i :: 0 <= i < |c| ==>
      c[i] == Choice(LoraMap[i].name, LoraMap[i].id, checked[i], values[i])
  {
    seq(|LoraMap|, i requires 0 <= i < |LoraMap| => Choice(LoraMap[i].name, LoraMap[i].id, checked[i], values[i]))
  }

  /** The dictionary `loras` after the loop has seen `entries`: each ticked
      entry stores its value under its id, a later one overwriting an earlier. */
  function Chosen<V>(entries: seq<Choice<V>>): map<string, V>
  {
    if entries == [] then map[]
    else
      var before := Chosen(entries[..|entries| - 1]);
      var last := entries[|entries| - 1];
      if last.selected then before[last.id := last.value] else before
  }

  /** Some ticked entry carries the id. */
  predicate Ticked<V>(entries: seq<Choice<V>>, id: string)
  {
    exists i :: 0 <= i < |entries| && entries[i].selected && entries[i].id == id
  }

  /** No two entries share an id. */
  predicate DistinctIds<V>(entries: seq<Choice<V>>)
  {
    forall i, j :: 0 <= i < j < |entries| ==> entries[i].id != entries[j].id
  }

  /** The keys of `loras` are exactly the ids of the ticked entries. */
  lemma {:induction false} ChosenKeys<V>(entries: seq<Choice<V>>, id: string)
    ensures id in Chosen(entries) <==> Ticked(entries, id)
  {
    if entries != [] {
      var n := |entries| - 1;
      var before := entries[..n];
      ChosenKeys(before, id);
      if Ticked(before, id) {
        var i :| 0 <= i < |before| && before[i].selected && before[i].id == id;
        assert entries[i] == before[i];
      }
      if Ticked(entries, id) && !(entries[n].selected && entries[n].id == id) {
        var i :| 0 <= i < |entries| && entries[i].selected && entries[i].id == id;
        assert before[i] == entries[i];
      }
    }
  }

  /** With distinct ids, every ticked entry's value is stored under its id. */
  lemma {:induction false} ChosenValue<V>(entries: seq<Choice<V>>, i: nat)
    requires DistinctIds(entries)
    requires i < |entries| && entries[i].selected
    ensures entries[i].id in Chosen(entries) && Chosen(entries)[entries[i].id] == entries[i].value
  {
    var n := |entries| - 1;
    if i < n {
      var before := entries[..n];
      assert before[i] == entries[i];
      ChosenValue(before, i);
    }
  }

  /** The loop over `lora_map`: `loras[lora] = value` for each ticked modifier.
      It builds the specified dictionary, whose keys are exactly the ticked
      ids (the values are the subject of `ChosenValue`). */
  method SelectModifiers<V>(entries: seq<Choice<V>>) returns (loras: map<string, V>)
    ensures loras == Chosen(entries)
    ensures forall id :: id in loras <==> Ticked(entries, id)
  {
    loras := map[];
    for i := 0 to |entries|
      invariant loras == Chosen(entries[..i])
    {
      assert entries[..i + 1][..i] == entries[..i];
      var entry := entries[i];
      if entry.selected {
        loras := loras[entry.id := entry.value];
      }
    }
    assert entries[..|entries|] == entries;
    forall id
      ensures id in loras <==> Ticked(entries, id)
    {
      ChosenKeys(entries, id);
    }
  }

  /** `lora_map` has five modifiers with five distinct ids. */
  lemma LoraMapDistinct()
    ensures |LoraMap| == 5
    ensures forall i, j :: 0 <= i < j < |LoraMap| ==> LoraMap[i].id != LoraMap[j].id
  {
  }

  /** `lora_map` offers five different modifier ids, so `loras` never has
      more than five keys. */
  lemma LoraIdsCount()
    ensures |LoraIds()| == 5
  {
    var ids := LoraIds();
    assert ids == {"LowRA", "coolkids_v2.5", "pixelart", "pigtail_hairstyle", "steampunkschematics"} by {
      forall id | id in ids
        ensures id in {"LowRA", "coolkids_v2.5", "pixelart", "pigtail_hairstyle", "steampunkschematics"}
      {
        var i :| 0 <= i < |LoraMap| && LoraMap[i].id == id;
      }
      assert LoraMap[0].id in ids && LoraMap[1].id in ids && LoraMap[2].id in ids;
      assert LoraMap[3].id in ids && LoraMap[4].id in ids;
    }
  }

  /** Over `lora_map`, `loras` holds exactly the ticked modifiers, each with
      its own slider value, and no key outside `lora_map`'s ids. */
  lemma {:induction false} ChosenOverLoraMap<V>(checked: seq<bool>, values: seq<V>)
    requires |checked| == |LoraMap| && |values| == |LoraMap|
    ensures var loras := Chosen(Choices(checked, values));
      && (forall i :: 0 <= i < |LoraMap| ==> (LoraMap[i].id in loras <==> checked[i]))
      && (forall i :: 0 <= i < |LoraMap| && checked[i] ==> loras[LoraMap[i].id] == values[i])
      && loras.Keys <= LoraIds()
  {
    var entries := Choices(checked, values);
    var loras := Chosen(entries);
    LoraMapDistinct();
    assert DistinctIds(entries);
    forall i | 0 <= i < |LoraMap|
      ensures LoraMap[i].id in loras <==> checked[i]
    {
      ChosenKeys(entries, LoraMap[i].id);
      if Ticked(entries, LoraMap[i].id) {
        var j :| 0 <= j < |entries| && entries[j].selected && entries[j].id == LoraMap[i].id;
        assert i == j;
      }
    }
    forall i | 0 <= i < |LoraMap| && checked[i]
      ensures loras[LoraMap[i].id] == values[i]
    {
      ChosenValue(entries, i);
    }
    forall id | id in loras
      ensures id in LoraIds()
    {
      ChosenKeys(entries, id);
    }
  }

  /** `model_map[model]`: the selector only offers the map's keys. */
  function ModelFor(style: string): (id: string)
    requires style in ModelMap
    ensures id in ModelMap.Values
    ensures forall other :: other in ModelMap && ModelMap[other] == id ==> other == style
  {
    ModelMap[style]
  }

  /** The six styles select six different models. */
  lemma ModelMapInjective()
    ensures |ModelMap.Keys| == 6
    ensures forall s, t :: s in ModelMap && t in ModelMap && s != t ==> ModelMap[s] != ModelMap[t]
  {
  }
}

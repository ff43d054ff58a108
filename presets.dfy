/** The built-in preset table and the preset manager (public/js/presets.js). */
module Presets {
  import opened Prelude
  import opened Gradients

  /** One line of the built-in table: four colours, speed, complexity, scale. */
  datatype Row = Row(c1: string, c2: string, c3: string, c4: string, speed: real, complexity: nat, scale: real)

  function RowPreset(row: Row): (p: Preset)
    ensures p.colors.Keys == ColorKeySet && p.animation.Keys == AnimationKeySet
    ensures p.colors["color1"] == row.c1 && p.colors["color2"] == row.c2 && p.colors["color3"] == row.c3 && p.colors["color4"] == row.c4
    ensures p.animation["speed"] == row.speed && p.animation["complexity"] == row.complexity as real && p.animation["scale"] == row.scale
  {
    Preset(map["color1" := row.c1, "color2" := row.c2, "color3" := row.c3, "color4" := row.c4],
           map["speed" := row.speed, "complexity" := row.complexity as real, "scale" := row.scale])
  }

  const BuiltinRows: map<string, Row> := map[
    "default" := Row("#ff6b6b", "#4ecdc4", "#45b7d1", "#f7dc6f", 1.0, 3, 1.0),
    "warm" := Row("#ff9a56", "#ff6b6b", "#feca57", "#ff7675", 0.8, 2, 1.2),
    "cool" := Row("#74b9ff", "#0984e3", "#00cec9", "#6c5ce7", 1.0, 3, 1.0),
    "contrast" := Row("#2d3436", "#ffffff", "#ddd", "#000000", 1.5, 4, 0.8),
    "cinematic" := Row("#2c3e50", "#3498db", "#9b59b6", "#1abc9c", 0.6, 4, 1.5),
    "vintage" := Row("#d63031", "#fdcb6e", "#6c5ce7", "#fd79a8", 0.5, 2, 2.0),
    "neon" := Row("#fd79a8", "#fdcb6e", "#00cec9", "#6c5ce7", 2.0, 5, 0.7),
    "sunset" := Row("#fd79a8", "#fdcb6e", "#e17055", "#d63031", 0.7, 3, 1.3),
    "cyberpunk" := Row("#ff006e", "#00f5ff", "#8338ec", "#3a86ff", 1.8, 5, 0.8),
    "ocean" := Row("#0984e3", "#74b9ff", "#00cec9", "#55a3ff", 1.2, 4, 1.1),
    "forest" := Row("#00b894", "#55a3ff", "#6c5ce7", "#a29bfe", 0.9, 3, 1.4),
    "fire" := Row("#d63031", "#e17055", "#fdcb6e", "#fd79a8", 1.6, 4, 0.9),
    "purple" := Row("#6c5ce7", "#a29bfe", "#fd79a8", "#fdcb6e", 1.1, 3, 1.2),
    "gold" := Row("#fdcb6e", "#e17055", "#fd79a8", "#d63031", 0.8, 2, 1.5),
    "ice" := Row("#74b9ff", "#0984e3", "#00cec9", "#ffffff", 0.6, 2, 1.8),
    "desert" := Row("#e17055", "#fdcb6e", "#d63031", "#ff7675", 0.7, 3, 1.6),
    "night" := Row("#2d3436", "#636e72", "#6c5ce7", "#a29bfe", 0.5, 4, 2.0),
    "spring" := Row("#00b894", "#55a3ff", "#fd79a8", "#fdcb6e", 1.3, 3, 1.1),
    "autumn" := Row("#e17055", "#d63031", "#fdcb6e", "#ff7675", 0.8, 3, 1.4),
    "electric" := Row("#00f5ff", "#ff006e", "#8338ec", "#ffbe0b", 2.2, 5, 0.6),
    "blood" := Row("#d63031", "#2d3436", "#636e72", "#e17055", 0.4, 4, 1.8),
    "cosmic" := Row("#2d3436", "#6c5ce7", "#a29bfe", "#74b9ff", 0.9, 5, 1.3),
    "lava" := Row("#d63031", "#e17055", "#2d3436", "#ff7675", 1.4, 4, 0.9),
    "mint" := Row("#00b894", "#00cec9", "#55a3ff", "#74b9ff", 1.0, 2, 1.2)
  ]

  /** `GRADIENT_PRESETS` as the page loads it. */
  const BuiltinPresets: map<string, Preset> := map name | name in BuiltinRows :: RowPreset(BuiltinRows[name])

  const BuiltinNames: set<string> := NamesA + NamesB + NamesC

  const NamesA: set<string> := {"default", "warm", "cool", "contrast", "cinematic", "vintage", "neon", "sunset"}
  const NamesB: set<string> := {"cyberpunk", "ocean", "forest", "fire", "purple", "gold", "ice", "desert"}
  const NamesC: set<string> := {"night", "spring", "autumn", "electric", "blood", "cosmic", "lava", "mint"}

  lemma {:induction false} BuiltinKeys()
    ensures BuiltinRows.Keys == BuiltinNames
  {
  }

  lemma {:induction false} NamesCount()
    ensures |NamesA| == 8 && |NamesB| == 8 && |NamesC| == 8
  {
  }

  lemma {:induction false} NamesDisjoint()
    ensures NamesA !! NamesB && NamesA !! NamesC && NamesB !! NamesC
  {
  }

  lemma {:induction false} BuiltinNamesCount()
    ensures |BuiltinNames| == 24
  {
    NamesCount();
    NamesDisjoint();
    assert |NamesA + NamesB| == 16;
  }

  /** The built-in table has 24 entries. */
  lemma {:induction false} BuiltinCount()
    ensures BuiltinPresets.Keys == BuiltinNames && |BuiltinPresets| == 24
  {
    BuiltinKeys();
    BuiltinNamesCount();
    assert BuiltinPresets.Keys == BuiltinRows.Keys;
  }

  lemma {:induction false} BuiltinComplexity(name: string)
    requires name in BuiltinRows
    ensures 2 <= BuiltinRows[name].complexity <= 5
  {
  }

  /** Every built-in preset has the four colour slots and the full animation
      record, with a whole complexity between 2 and 5. */
  lemma {:induction false} BuiltinWellFormed(name: string)
    requires name in BuiltinPresets
    ensures BuiltinPresets[name].colors.Keys == ColorKeySet
    ensures BuiltinPresets[name].animation.Keys == AnimationKeySet
    ensures var x := BuiltinPresets[name].animation["complexity"]; 2.0 <= x <= 5.0 && x == x.Floor as real
  {
    BuiltinComplexity(name);
  }

  /** The `default` preset is the engine's initial state. */
  lemma {:induction false} DefaultPresetIsDefault()
    ensures "default" in BuiltinPresets
    ensures BuiltinPresets["default"].colors == DefaultSettings.colors
    ensures BuiltinPresets["default"].animation == DefaultSettings.animation
  {
    var row := BuiltinRows["default"];
    assert row == Row("#ff6b6b", "#4ecdc4", "#45b7d1", "#f7dc6f", 1.0, 3, 1.0);
  }

  /** A JavaScript object holding presets by name. */
  class PresetTable {
    var entries: map<string, Preset>

    constructor (entries: map<string, Preset>)
      ensures this.entries == entries
    {
      this.entries := entries;
    }
  }

  class PresetManager {
    const engine: GradientEngine
    /** `this.presets`. */
    const presets: PresetTable
    /** The global `GRADIENT_PRESETS` object, which the guard of `removeCustomPreset` consults. */
    const builtin: PresetTable

    /** `new PresetManager(engine)` as written: `this.presets` is the global
        table itself, not a copy. */
    constructor (engine: GradientEngine, global: PresetTable)
      ensures this.engine == engine && presets == global && builtin == global
    {
      this.engine := engine;
      presets := global;
      builtin := global;
    }

    /** A manager whose own table starts as a copy of the global one, so that
        custom presets stay out of `GRADIENT_PRESETS`. */
    constructor Isolated(engine: GradientEngine, global: PresetTable)
      ensures this.engine == engine && builtin == global
      ensures fresh(presets) && presets.entries == global.entries
    {
      this.engine := engine;
      presets := new PresetTable(global.entries);
      builtin := global;
    }

    /** `getPreset(name)`: the entry, or `None` for `undefined`. */
    function GetPreset(name: string): (r: Option<Preset>)
      reads presets
      ensures r.Some? <==> name in presets.entries
      ensures r.Some? ==> r.value == presets.entries[name]
    {
      Lookup(presets.entries, name)
    }

    function GetAllPresets(): (t: PresetTable)
      reads this
      ensures t == presets
    {
      presets
    }

    function GetCurrentPreset(): (r: Option<string>)
      reads engine
      ensures r == engine.settings.currentPreset
    {
      engine.GetSettings().currentPreset
    }

    /** `applyPreset(name)`: hands the entry to the engine when there is one. */
    method ApplyPreset(name: string) returns (applied: bool)
      modifies engine
      ensures applied <==> name in presets.entries
      ensures applied ==> engine.settings == SetPresetState(old(engine.settings), name, presets.entries[name])
      ensures applied ==> engine.callbacks == old(engine.callbacks) && engine.NotifiedOnce()
      ensures !applied ==> unchanged(engine)
    {
      var preset := GetPreset(name);
      if preset.Some? {
        engine.SetPreset(name, preset.value);
        return true;
      }
      return false;
    }

    /** `addCustomPreset(name, preset)`: insert or overwrite. */
    method AddCustomPreset(name: string, preset: Preset)
      modifies presets
      ensures presets.entries == old(presets.entries)[name := preset]
    {
      presets.entries := presets.entries[name := preset];
    }

    /** `removeCustomPreset(name)`: deletes a name of the manager's table that
        the global table does not have. */
    method RemoveCustomPreset(name: string) returns (removed: bool)
      modifies presets
      ensures removed <==> name in old(presets.entries) && name !in old(builtin.entries)
      ensures presets.entries == if removed then old(presets.entries) - {name} else old(presets.entries)
      ensures presets == builtin ==> !removed && unchanged(presets)
    {
      if name in presets.entries && name !in builtin.entries {
        presets.entries := presets.entries - {name};
        return true;
      }
      return false;
    }
  }

  /** As written, a custom preset that was just added cannot be removed: the
      guard finds it in the global table it was added to. */
  method AddThenRemove(engine: GradientEngine, global: PresetTable, name: string, preset: Preset) returns (removed: bool)
    modifies global
    ensures !removed
    ensures global.entries == old(global.entries)[name := preset]
  {
    var manager := new PresetManager(engine, global);
    manager.AddCustomPreset(name, preset);
    removed := manager.RemoveCustomPreset(name);
  }

  /** With a manager that copies the table, adding and then removing a name the
      built-in table does not have succeeds and leaves both tables as they were. */
  method AddThenRemoveIsolated(engine: GradientEngine, global: PresetTable, name: string, preset: Preset) returns (removed: bool)
    requires name !in global.entries
    ensures removed
    ensures unchanged(global)
  {
    var manager := new PresetManager.Isolated(engine, global);
    manager.AddCustomPreset(name, preset);
    removed := manager.RemoveCustomPreset(name);
    assert manager.presets.entries == global.entries;
  }

  /** With a copying manager, built-in presets stay protected. */
  method RemoveBuiltinIsolated(engine: GradientEngine, global: PresetTable, name: string) returns (removed: bool)
    requires name in global.entries
    ensures !removed && unchanged(global)
  {
    var manager := new PresetManager.Isolated(engine, global);
    removed := manager.RemoveCustomPreset(name);
  }
}

/** The sprite selector of the left panel: three boolean toggles, the asset
    key derived from them, and the guarded toggle that refuses to move to a
    combination for which the supplied sprite table has no image. */
module Sprite {
  import opened Wrappers

  /** The three toggles of the selector. */
  datatype SpriteState = SpriteState(front: bool, female: bool, shiny: bool)

  /** The toggle a button or a shortcut names (`handleChange` takes the field
      name as a string). */
  datatype Toggle = Front | Female | Shiny

  /** The state the selector starts in. */
  const Initial: SpriteState := SpriteState(true, false, false)

  /** The sprite table supplied by the parent: asset key to image reference
      (`None` stands for `null`). A key absent from the map reads as
      `undefined`. */
  type SpriteTable = map<string, Option<string>>

  /** The asset key of a toggle combination. */
  function BuildImage(s: SpriteState): (key: string)
  {
    var direction := if s.front then "front" else "back";
    var light := if s.shiny then "_shiny" else "_default";
    var gender := if s.female then "_female" else "";
    if light == "_default" && gender == "_female" then direction + gender
    else direction + light + gender
  }

  /** The keys of the four front-facing combinations. */
  lemma BuildImageFront()
    ensures BuildImage(SpriteState(true, false, false)) == "front_default"
    ensures BuildImage(SpriteState(true, true, false)) == "front_female"
    ensures BuildImage(SpriteState(true, false, true)) == "front_shiny"
    ensures BuildImage(SpriteState(true, true, true)) == "front_shiny_female"
  {
  }

  /** The keys of the four back-facing combinations. */
  lemma BuildImageBack()
    ensures BuildImage(SpriteState(false, false, false)) == "back_default"
    ensures BuildImage(SpriteState(false, true, false)) == "back_female"
    ensures BuildImage(SpriteState(false, false, true)) == "back_shiny"
    ensures BuildImage(SpriteState(false, true, true)) == "back_shiny_female"
  {
  }

  /** The table of the eight keys, read backwards: the combination a key
      was built from, or `None` for a string that no combination yields. */
  function ParseImage(key: string): (r: Option<SpriteState>)
    ensures r.Some? ==> BuildImage(r.value) == key
  {
    BuildImageFront();
    BuildImageBack();
    if key == "front_default" then Some(SpriteState(true, false, false))
    else if key == "front_female" then Some(SpriteState(true, true, false))
    else if key == "front_shiny" then Some(SpriteState(true, false, true))
    else if key == "front_shiny_female" then Some(SpriteState(true, true, true))
    else if key == "back_default" then Some(SpriteState(false, false, false))
    else if key == "back_female" then Some(SpriteState(false, true, false))
    else if key == "back_shiny" then Some(SpriteState(false, false, true))
    else if key == "back_shiny_female" then Some(SpriteState(false, true, true))
    else None
  }

  /** Reading a built key back gives the combination it came from. */
  lemma ParseBuildImage(s: SpriteState)
    ensures ParseImage(BuildImage(s)) == Some(s)
  {
    var key := BuildImage(s);
    BuildImageFront();
    BuildImageBack();
    // Keys of equal length differ in their first or last letter.
    assert key[0] == (if s.front then 'f' else 'b');
    assert key[|key| - 1] == (if s.female then 'e' else if s.shiny then 'y' else 't');
  }

  /** Distinct combinations have distinct keys. */
  lemma BuildImageInjective(a: SpriteState, b: SpriteState)
    requires BuildImage(a) == BuildImage(b)
    ensures a == b
  {
    ParseBuildImage(a);
    ParseBuildImage(b);
  }

  /** A key starts with "front" exactly when the front toggle is set, and
      with "back" exactly when it is not. */
  lemma BuildImageDirection(s: SpriteState)
    ensures s.front <==> |BuildImage(s)| >= 5 && BuildImage(s)[..5] == "front"
    ensures !s.front <==> |BuildImage(s)| >= 4 && BuildImage(s)[..4] == "back"
  {
    var key := BuildImage(s);
    BuildImageFront();
    BuildImageBack();
    assert key[0] == (if s.front then 'f' else 'b');
    assert |key| >= 5 ==> key[..5][0] == key[0];
    assert |key| >= 4 ==> key[..4][0] == key[0];
  }

  /** The state with exactly the chosen toggle negated. */
  function Flip(s: SpriteState, t: Toggle): (r: SpriteState)
    ensures r.front != s.front <==> t == Front
    ensures r.female != s.female <==> t == Female
    ensures r.shiny != s.shiny <==> t == Shiny
  {
    match t
    case Front => s.(front := !s.front)
    case Female => s.(female := !s.female)
    case Shiny => s.(shiny := !s.shiny)
  }

  /** `sprites[key]`: the reference stored under `key`, `None` for `null`
      and for a key the table does not have. */
  function Lookup(table: SpriteTable, key: string): Option<string>
  {
    if key in table then table[key] else None
  }

  /** JavaScript truthiness of a looked-up reference: present and not the
      empty string. */
  predicate Truthy(v: Option<string>)
  {
    v.Some? && v.value != ""
  }

  /** The guard of `handleChange`: with no table every toggle goes through;
      with a table, only a toggle whose new key maps to a truthy reference. */
  predicate Accepts(sprites: Option<SpriteTable>, s: SpriteState, t: Toggle)
  {
    sprites.None? || Truthy(Lookup(sprites.value, BuildImage(Flip(s, t))))
  }

  /** The state `handleChange` leaves behind. */
  function Commit(sprites: Option<SpriteTable>, s: SpriteState, t: Toggle): (r: SpriteState)
    ensures Accepts(sprites, s, t) ==> r == Flip(s, t)
    ensures !Accepts(sprites, s, t) ==> r == s
    ensures sprites.None? ==> r == Flip(s, t)
  {
    if sprites.Some? && !Truthy(Lookup(sprites.value, BuildImage(Flip(s, t)))) then s
    else Flip(s, t)
  }

  /** Flipping the same toggle twice gives the state back. */
  lemma FlipTwice(s: SpriteState, t: Toggle)
    ensures Flip(Flip(s, t), t) == s
  {
  }

  /** Two accepted toggles of the same attribute restore the state. */
  lemma CommitTwice(sprites: Option<SpriteTable>, s: SpriteState, t: Toggle)
    requires Accepts(sprites, s, t) && Accepts(sprites, Flip(s, t), t)
    ensures Commit(sprites, Commit(sprites, s, t), t) == s
  {
    FlipTwice(s, t);
  }

  /** The selector shows a combination that has an image. */
  predicate HasImage(sprites: Option<SpriteTable>, s: SpriteState)
  {
    sprites.None? || Truthy(Lookup(sprites.value, BuildImage(s)))
  }

  /** A toggle never moves from a combination that has an image to one
      that has none. */
  lemma CommitKeepsImage(sprites: Option<SpriteTable>, s: SpriteState, t: Toggle)
    requires HasImage(sprites, s)
    ensures HasImage(sprites, Commit(sprites, s, t))
  {
  }

  /** The keyboard shortcuts: Ctrl+S (83) shiny, Ctrl+G (71) gender,
      Ctrl+B (66) direction; nothing without Ctrl. */
  function KeyToggle(ctrl: bool, keyCode: int): (r: Option<Toggle>)
    ensures r == Some(Shiny) <==> ctrl && keyCode == 83
    ensures r == Some(Female) <==> ctrl && keyCode == 71
    ensures r == Some(Front) <==> ctrl && keyCode == 66
  {
    if !ctrl then None
    else if keyCode == 83 then Some(Shiny)
    else if keyCode == 71 then Some(Female)
    else if keyCode == 66 then Some(Front)
    else None
  }

  /** The selector component: its state (`sprite`, `src`, `error`) and the
      `sprites` prop it last received. */
  class Selector {
    var sprite: SpriteState
    var src: Option<string>
    var error: bool
    var sprites: Option<SpriteTable>

    /** `src` shows the image of the current combination. */
    predicate Synced()
      reads this
    {
      sprites.Some? ==> src == Lookup(sprites.value, BuildImage(sprite))
    }

    /** Mounting: the initial state, then the first run of the `src`
        effect. */
    constructor (sprites: Option<SpriteTable>)
      ensures this.sprites == sprites && sprite == Initial && !error
      ensures sprites.Some? ==> src == Lookup(sprites.value, "front_default")
      ensures sprites.None? ==> src == Some("")
      ensures Synced()
    {
      this.sprites := sprites;
      sprite := Initial;
      src := Some("");
      error := false;
      new;
      SyncSource();
      BuildImageFront();
    }

    /** The `src` effect: with a table, `src` becomes the reference of the
        current key; without one, `src` is left as it is. */
    method SyncSource()
      modifies this`src
      ensures sprites.Some? ==> src == Lookup(sprites.value, BuildImage(sprite))
      ensures sprites.None? ==> src == old(src)
      ensures Synced()
    {
      if sprites.Some? {
        var source := BuildImage(sprite);
        src := Lookup(sprites.value, source);
      }
    }

    /** `handleChange`: commit the flipped state when the table has an
        image for it, otherwise keep the state and raise the error flag. */
    method HandleChange(t: Toggle)
      modifies this`sprite, this`error
      ensures sprite == Commit(sprites, old(sprite), t)
      ensures error == (old(error) || !Accepts(sprites, old(sprite), t))
    {
      var spriteCopy := Flip(sprite, t);
      var source := BuildImage(spriteCopy);
      if sprites.Some? && !Truthy(Lookup(sprites.value, source)) {
        error := true;
        return;
      }
      sprite := Flip(sprite, t);
    }

    /** The timer that follows a refused toggle: the error flag drops. */
    method ClearError()
      modifies this`error
      ensures !error
    {
      error := false;
    }

    /** The keydown listener: each shortcut goes through `HandleChange`;
        any other key, and any key without Ctrl, changes nothing. */
    method OnKeyDown(ctrl: bool, keyCode: int)
      modifies this`sprite, this`error
      ensures KeyToggle(ctrl, keyCode).None? ==> sprite == old(sprite) && error == old(error)
      ensures KeyToggle(ctrl, keyCode).Some? ==>
        var t := KeyToggle(ctrl, keyCode).value;
        sprite == Commit(sprites, old(sprite), t) &&
        error == (old(error) || !Accepts(sprites, old(sprite), t))
    {
      if ctrl && keyCode == 83 {
        HandleChange(Shiny);
      }
      if ctrl && keyCode == 71 {
        HandleChange(Female);
      }
      if ctrl && keyCode == 66 {
        HandleChange(Front);
      }
    }

    /** One toggle followed by the render it causes: the effect runs only
        when the state changed, as its dependency list demands. An accepted
        toggle therefore shows the new combination's image. */
    method ToggleAndRender(t: Toggle)
      modifies this`sprite, this`error, this`src
      ensures sprite == Commit(sprites, old(sprite), t)
      ensures error == (old(error) || !Accepts(sprites, old(sprite), t))
      ensures Accepts(sprites, old(sprite), t) && sprites.Some? ==>
        Truthy(src) && src == Lookup(sprites.value, BuildImage(Flip(old(sprite), t)))
      ensures !Accepts(sprites, old(sprite), t) ==> src == old(src)
      ensures sprites.None? ==> src == old(src)
      ensures old(Synced()) ==> Synced()
    {
      var before := sprite;
      HandleChange(t);
      if sprite != before {
        SyncSource();
      }
    }

    /** A new `sprites` prop from the parent, followed by the effect it
        triggers. The toggles are kept. */
    method SetSprites(p: Option<SpriteTable>)
      modifies this`sprites, this`src
      ensures sprites == p
      ensures p.Some? ==> src == Lookup(p.value, BuildImage(sprite))
      ensures p.None? ==> src == old(src)
    {
      sprites := p;
      SyncSource();
    }
  }
}

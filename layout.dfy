/** The player layout of the football demo: where each player of a roster is
    drawn and with which sprite, as `init_player_sprites` computes it when the
    game state starts. Screen coordinates are kept as integers (the source
    converts them to f32; every value is a multiple of 40). */
module Layout {
  import opened Roster

  /** Width and height of one player's cell, in screen units. */
  const PlayerWidth: nat := 40
  const PlayerHeight: nat := 40

  /** A sprite of the player sheet, by its number in the sheet. */
  datatype SpriteRender = SpriteRender(spriteNumber: nat)

  /** What one step of the layout loop hands to the engine for one entity: the
      cloned player, its translation (x, y) and the sprite it is drawn with. */
  datatype Placement = Placement(player: FBPlayer, x: int, y: int, sprite: SpriteRender)

  /** One placement per player, in roster order: placement `i` carries player
      `i`, sits in column `i` and in the row of that player's team. */
  predicate LaidOut(players: seq<FBPlayer>, placed: seq<Placement>)
  {
    |placed| == |players| &&
    forall i :: 0 <= i < |placed| ==>
      placed[i].player == players[i] &&
      placed[i].x == PlayerWidth * i &&
      placed[i].y == players[i].team as int * PlayerHeight
  }

  /** The sprite pool `on_start` builds: sprites 0 and 1 of the player sheet. */
  function PlayerSpritePool(): (sprites: seq<SpriteRender>)
    ensures |sprites| == 2
    ensures forall i :: 0 <= i < |sprites| ==> sprites[i].spriteNumber == i
  {
    seq(2, i requires 0 <= i < 2 => SpriteRender(i))
  }

  /** `init_player_sprites` as written: step `i` draws player `i` with
      `sprites[i % players.len()]`. Since `i < players.len()` the modulus never
      wraps, so player `i` gets sprite `i`, and the loop stays inside the pool
      exactly when the pool has at least as many sprites as the roster has
      players. */
  method InitPlayerSprites(players: seq<FBPlayer>, sprites: seq<SpriteRender>) returns (placed: seq<Placement>)
    requires |players| <= |sprites|
    ensures LaidOut(players, placed)
    ensures forall i :: 0 <= i < |placed| ==> placed[i].sprite == sprites[i]
  {
    placed := [];
    for i := 0 to |players|
      invariant |placed| == i
      invariant forall k :: 0 <= k < i ==>
                  placed[k].player == players[k] &&
                  placed[k].x == PlayerWidth * k &&
                  placed[k].y == players[k].team as int * PlayerHeight &&
                  placed[k].sprite == sprites[k]
    {
      var player := players[i];
      var sprite := sprites[i % |players|];
      placed := placed + [Placement(player, PlayerWidth * i, player.team as int * PlayerHeight, sprite)];
    }
  }

  /** The layout loop with the modulus taken by the pool's size, so that a short
      pool is cycled over a longer roster. It agrees with `InitPlayerSprites`
      wherever that one stays inside the pool. */
  method InitPlayerSpritesCycled(players: seq<FBPlayer>, sprites: seq<SpriteRender>) returns (placed: seq<Placement>)
    requires |players| == 0 || |sprites| > 0
    ensures LaidOut(players, placed)
    ensures forall i :: 0 <= i < |placed| ==> placed[i].sprite == sprites[i % |sprites|]
    ensures |players| <= |sprites| ==> forall i :: 0 <= i < |placed| ==> placed[i].sprite == sprites[i]
  {
    placed := [];
    for i := 0 to |players|
      invariant |placed| == i
      invariant forall k :: 0 <= k < i ==>
                  placed[k].player == players[k] &&
                  placed[k].x == PlayerWidth * k &&
                  placed[k].y == players[k].team as int * PlayerHeight &&
                  placed[k].sprite == sprites[k % |sprites|]
    {
      var player := players[i];
      var sprite := sprites[i % |sprites|];
      placed := placed + [Placement(player, PlayerWidth * i, player.team as int * PlayerHeight, sprite)];
    }
    if |players| <= |sprites| {
      forall i | 0 <= i < |placed| ensures placed[i].sprite == sprites[i] {
        SmallIndexUnwrapped(i, |sprites|);
      }
    }
  }

  /** `on_start`'s part in the layout: build the two-sprite pool and lay out the
      state's roster with the loop as written. For the state `FBState::new`
      returns, whose roster is empty, nothing is placed. */
  method OnStart(state: FBState) returns (placed: seq<Placement>)
    requires |state.players| <= 2
    ensures LaidOut(state.players, placed)
    ensures forall i :: 0 <= i < |placed| ==> placed[i].sprite == SpriteRender(i)
    ensures state == New() ==> placed == []
  {
    var sprites := PlayerSpritePool();
    placed := InitPlayerSprites(state.players, sprites);
  }

  /** An index below the modulus is left as it is. */
  lemma SmallIndexUnwrapped(i: nat, n: nat)
    requires i < n
    ensures i % n == i
  {
  }

  /** Arithmetic step used by `LayOutStdTeam`: index 11 taken modulo a pool of
      two is 1. */
  lemma ElevenModTwo()
    ensures 11 % 2 == 1
  {
  }

  /** Cells never overlap: along the row, each placement starts at least one
      player width to the right of every earlier one. */
  lemma LaidOutColumns(players: seq<FBPlayer>, placed: seq<Placement>)
    requires LaidOut(players, placed)
    ensures forall i, j :: 0 <= i < j < |placed| ==> placed[i].x + PlayerWidth <= placed[j].x
  {
  }

  /** A placement determines its player's slot in the roster and its team:
      dividing x and y by the cell size gives them back. */
  lemma LaidOutRecoversSlotAndTeam(players: seq<FBPlayer>, placed: seq<Placement>)
    requires LaidOut(players, placed)
    ensures forall i :: 0 <= i < |placed| ==>
              placed[i].x / PlayerWidth == i && placed[i].y / PlayerHeight == players[i].team as int
  {
  }

  /** Counterexample for the as-written loop: when the roster is longer than the
      pool, step `|sprites|` asks for sprite index `|sprites| % |players|`,
      which is `|sprites|` itself, one past the last sprite. With the pool of
      two sprites and the 22-player standard team this is step 2. */
  lemma AsWrittenOverrunsPool(players: seq<FBPlayer>, sprites: seq<SpriteRender>)
    requires |sprites| < |players|
    ensures |sprites| % |players| == |sprites|
    ensures !(|sprites| % |players| < |sprites|)
  {
  }

  /** The standard team laid out with the two-sprite pool, cycling the pool:
      offense in row 0 and defense in row 40, column by column; the QB at
      (0, 0) with sprite 0, the HB at (40, 0) with sprite 1, the nose tackle
      at (440, 40) with sprite 1. */
  method LayOutStdTeam() returns (placed: seq<Placement>)
    ensures |placed| == 22
    ensures forall i :: 0 <= i < |placed| ==>
              placed[i].x == 40 * i && placed[i].y == (if i < 11 then 0 else 40)
    ensures placed[0].player.position == QB && placed[0].sprite == SpriteRender(0)
    ensures placed[1].player.position == HB && placed[1].sprite == SpriteRender(1)
    ensures placed[11].player.position == DT && placed[11].sprite == SpriteRender(1)
  {
    var players := BuildStdTeam();
    var sprites := PlayerSpritePool();
    placed := InitPlayerSpritesCycled(players, sprites);
    assert players[0] == players[..11][0] == BuildStd21Offense(0)[0];
    assert players[1] == players[..11][1] == BuildStd21Offense(0)[1];
    assert players[11] == players[11..][0] == BuildStd34Defense(1)[0];
    assert OffenseTemplate[0].position == QB && OffenseTemplate[1].position == HB;
    assert DefenseTemplate[0].position == DT;
    SmallIndexUnwrapped(1, 2);
    ElevenModTwo();
    forall i | 0 <= i < |placed| ensures placed[i].x == 40 * i && placed[i].y == (if i < 11 then 0 else 40) {
      assert placed[i].y == players[i].team as int * PlayerHeight;
    }
    assert placed[0].sprite == sprites[0] && placed[1].sprite == sprites[1] && placed[11].sprite == sprites[1];
  }
}

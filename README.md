# Football roster and player layout

A model of the domain logic of the football demo game (`game/src/state.rs`):

- **Roster** (`roster.dfy`): the position tags (`FBPosition`), the player record
  (`FBPlayer`: jersey number, position, team, with Rust's `u8` as a newtype), the
  two fixed personnel groupings — the "21" offense and the "3-4" defense — each
  built for a team id by adding it to fixed base numbers, the standard team (the
  offense of team 0 extended in place with the defense of team 1) and the game
  state `FBState` with its empty constructor `New`. The groupings are also given
  as slot tables (`OffenseTemplate`, `DefenseTemplate`) with a recursive
  reference definition `Instantiate`; the straight-line builders are proved equal
  to it.
- **Layout** (`layout.dfy`): the loop of `init_player_sprites`, which places
  player `i` at x = 40·i, y = 40·team and draws it with `sprites[i % players.len()]`;
  the two-sprite pool `on_start` builds; and `on_start`'s layout step for the
  state it is given.

The builders are functions (the source builds records and returns a `vec!`);
`build_std_team`, which extends a `Vec` in place, and the layout loop, which
creates one entity per step, are methods. Coordinates are integers (every
value the source computes is a multiple of 40 converted to `f32`).

Where a reader's expectation differs from the code, the model follows the code:

- the five offensive linemen are tagged `HB`, so `HB` occurs six times in the offense;
- the center and the right guard both wear `68 + team`, so numbers within one grouping are not unique;
- the nose tackle is tagged `DT`; the tag `NT` is declared but never used;
- the sprite index is `i % players.len()`, not `i % sprites.len()`: it is always `i`, the pool is not cycled, and the loop is in bounds only when the pool has at least as many sprites as the roster has players;
- there is no error for an empty sprite pool: the code has no such check, and with an empty roster the loop does nothing;
- the standard team tags its offense with team 0 and its defense with team 1, and is laid out in two rows accordingly.

Sums of a base number and a team id are `u8` additions; the builders require
the team id to be small enough that they do not overflow (at most 167 for the
offense, 159 for the defense), and lemmas show these bounds are exact.

## Model

| member | source | states |
|---|---|---|
| `Roster.Instantiate` | game/src/state.rs:42-70 | reference reading of a grouping: one player per template slot, in slot order, numbered base + team, tagged with the slot's position, carrying the team id |
| `Roster.BuildStd21Offense` | game/src/state.rs:42-55 | 11 players, all of the given team, equal slot by slot to the offense table (bases 12, 20, 33, 88, 84, 81, 68, 77, 68, 69, 71 plus team); only callable when no u8 sum overflows |
| `Roster.BuildStd34Defense` | game/src/state.rs:57-70 | 11 players, all of the given team, equal slot by slot to the defense table (bases 91, 94, 96, 56, 60, 63, 52, 20, 26, 30, 36 plus team) |
| `Roster.OffenseFitsU8` | game/src/state.rs:43-53 | every offense number fits in a u8 if and only if team <= 167 |
| `Roster.DefenseFitsU8` | game/src/state.rs:58-68 | every defense number fits in a u8 if and only if team <= 159 |
| `Roster.OffensePositions` | game/src/state.rs:43-54 | offense positions are QB, HB, FB, TE, WR, WR and then HB for all five linemen: the multiset has one QB, FB, TE, two WR and six HB |
| `Roster.DefensePositions` | game/src/state.rs:58-69 | defense positions are DT, DE, DE, four LB, CB, CB, FS, SS; NT never occurs and DT occurs only at the first slot |
| `Roster.OffenseSharedNumber` | game/src/state.rs:49-51 | two offense players share a number if and only if they are the center (index 6) and the right guard (index 8) |
| `Roster.DefenseNumbersDistinct` | game/src/state.rs:58-68 | all defense numbers are pairwise distinct |
| `Roster.SameTeamRepeatsNumber` | game/src/state.rs:44-65 | built for the same team id, the offense HB (line 44) and the first defense CB (line 65) both wear 20 + team |
| `Roster.OffenseTeamOffset` | game/src/state.rs:43-53 | changing the team id shifts every offense number by exactly the change |
| `Roster.StdHalvesDisjoint` | game/src/state.rs:72-76 | no number of the offense of team 0 is a number of the defense of team 1 |
| `Roster.StdTeamSharedNumbers` | game/src/state.rs:72-76 | in the standard team the only pair of players sharing a number is (6, 8) |
| `Roster.BuildStdTeam` | game/src/state.rs:72-76 | 22 players: the first 11 are the offense of team 0 and the last 11 the defense of team 1, so team is 0 below index 11 and 1 from it; numbers repeat only at (6, 8) |
| `Roster.New` | game/src/state.rs:78-81 | the new state's roster is empty |
| `Layout.PlayerSpritePool` | game/src/state.rs:104-107 | the pool has two sprites, numbered 0 and 1 |
| `Layout.InitPlayerSprites` | game/src/state.rs:184-197 | one placement per player in roster order: placement i carries player i at x = 40·i, y = 40·team, drawn with sprites[i]; callable exactly when the pool is at least as long as the roster |
| `Layout.InitPlayerSpritesCycled` | game/src/state.rs:184-197 | same placements with the pool cycled (sprite i mod pool size); agrees with the as-written loop whenever the pool covers the roster |
| `Layout.OnStart` | game/src/state.rs:92-112 | lays out the state's roster with the two-sprite pool as written: player i gets sprite i, and for the state `New` returns nothing is placed |
| `Layout.LaidOutColumns` | game/src/state.rs:187-189 | in any layout, each placement starts at least one player width right of every earlier one, so cells do not overlap |
| `Layout.LaidOutRecoversSlotAndTeam` | game/src/state.rs:187-189 | a placement's x and y divided by the cell size give back the player's roster index and team |
| `Layout.AsWrittenOverrunsPool` | game/src/state.rs:193 | for a roster longer than the pool, the as-written index at step pool-size is pool-size itself, one past the last sprite |
| `Layout.LayOutStdTeam` | game/src/state.rs:184-197 | corrected loop (see ## Findings): the standard team with the two-sprite pool, cycled: 22 placements, x = 40·i, offense in row 0 and defense in row 40; QB at (0, 0) with sprite 0, HB at (40, 0) with sprite 1, nose tackle at (440, 40) with sprite 1 |

## Left out

- Entity creation and registration (`world.register`, `create_entity().with(..).build()`, the `Component` impl for `FBPlayer`): engine calls; the model keeps the values handed to them as a `Placement`.
- The sprite-sheet handle inside `SpriteRender`: an engine asset handle; a sprite is identified by its number only.
- `load_player_sprites`: texture and sprite-sheet loading from files through the engine loader.
- `handle_event`: window and keyboard event handling and logging.
- `init_camera`: float centering of the camera and the engine's `Camera::standard_2d`.
- Floating-point coordinates and the constant z = 0.0 of the player transform: coordinates are integers.
- Release-mode wrap-around of the `u8` sums in the builders: the model takes the checked (debug) reading, where an overflowing sum is an error, and makes it a precondition.
- The screen dimensions passed to `init_player_sprites`: the loop does not use them.

## Findings

| source | as written | input that shows it | evidently intended | confidence | as-written member | corrected member |
|---|---|---|---|---|---|---|
| game/src/state.rs:193 | `sprites[i % players.len()]`: since `i < players.len()` the index is always `i`, so the pool is never cycled | the 22-player standard team laid out with the two-sprite pool of line 104: step 2 reads `sprites[2]`, out of bounds | `sprites[i % sprites.len()]`, cycling the short pool over the roster | medium (in the shipped program the roster is empty, so the loop never runs); not executed | Layout.InitPlayerSprites, with Layout.AsWrittenOverrunsPool | Layout.InitPlayerSpritesCycled |

`Layout.OnStart` keeps the call as written, since it models `on_start` itself;
for the rosters it accepts (at most two players) the two loops agree, as
`InitPlayerSpritesCycled`'s last postcondition states. The standard-team
layout, `Layout.LayOutStdTeam`, uses the corrected loop.

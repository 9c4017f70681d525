# DestroyableBushes save data, in Dafny

A model of the save data kept by the DestroyableBushes game mod. The mod lets a
player destroy the bushes of a farming game and have them respawn later. Its
save data (`ModData`) is a list of `DestroyedBush` records. Each record holds
what is needed to recreate one bush:

- the name of its location;
- its anchor tile;
- its size class;
- its "town bush" flag;
- an optional tilesheet offset;
- the in-game date it was destroyed, stored as three fields (day, season, year).

A record can also list the tiles its collision box would obstruct. That list
starts at the anchor tile and runs rightward:

- one tile for a small bush, and for any size value the code does not recognise;
- two tiles for a medium or walnut bush;
- three tiles for a large bush.

Everything is in `destroyable_bushes.dfy`, module `DestroyableBushes`.

- The C# nested class `ModData.DestroyedBush` becomes the sibling class `DestroyedBush`.
- C# `null` (for `LocationName`, the stored `season` and `TilesheetOffset`) becomes `Option.None`.
- The `DateDestroyed` property becomes a function for reading it and a method `SetDateDestroyed` for writing it.
- The host's current date (`SDate.Now()`) is passed to the full constructor as the parameter `now`.
- The optional arguments `townBush` and `tilesheetOffset` keep their defaults, `false` and `None`.

`SpanRight(anchor, width)` and `FootprintWidth(size)` give a second definition of
the footprint: a run of tiles rightward from the anchor, as wide as the size
class. The lemmas prove that `GetCollisionTiles` agrees with it. Two client
methods, `TownMediumBushScenario` and `LargeBushScenario`, show what a caller can
conclude from the contracts alone.

## Model

| member | source | states |
|---|---|---|
| DestroyableBushes.ModData.constructor | DestroyableBushes/ModData.cs:14 | a new save data object starts with an empty list of destroyed bushes |
| DestroyableBushes.DestroyedBush.constructor | DestroyableBushes/ModData.cs:20-64 | the parameterless constructor leaves every field at its default: no location name, tile (0,0), size 0, `TownBush` false, no tilesheet offset, and no stored date (day 0, no season, year 0) |
| DestroyableBushes.DestroyedBush.Create | DestroyableBushes/ModData.cs:66-74 | the full constructor stores location name, tile, size, town flag and tilesheet offset exactly as passed (town flag false and offset absent when omitted) and sets the destruction date to the current date |
| DestroyableBushes.DestroyedBush.DateDestroyed | DestroyableBushes/ModData.cs:49-52 | reading the date rebuilds it from exactly the stored day, season and year; it fails only when no season is stored |
| DestroyableBushes.DestroyedBush.SetDateDestroyed | DestroyableBushes/ModData.cs:53-58 | writing a date stores its day, season and year and touches no other field; reading it back gives the same date, and writing back the date already held leaves the stored fields unchanged |
| DestroyableBushes.DestroyedBush.GetCollisionTiles | DestroyableBushes/ModData.cs:78-96 | depends only on `Tile` and `Size`; yields 1 to 3 tiles; the first is the anchor, the i-th is offset i to the right on the anchor's row; exactly 2 tiles iff the size is medium or walnut, exactly 3 iff it is large |
| DestroyableBushes.FootprintWidth | DestroyableBushes/ModData.cs:80-95 | the width of a size class's footprint is between 1 and 3 |
| DestroyableBushes.SpanRight | DestroyableBushes/ModData.cs:84-90 | a run of `width` tiles from the anchor has that length, and its i-th tile is offset i to the right on the anchor's row |
| DestroyableBushes.CollisionTilesAreSpan | DestroyableBushes/ModData.cs:78-96 | for every record, the collision tiles equal the run of tiles from the anchor as wide as the size class's footprint |
| DestroyableBushes.CollisionTileMembership | DestroyableBushes/ModData.cs:76-96 | a tile is obstructed iff it is on the anchor's row, at or right of the anchor, and less than the footprint width away from it |
| DestroyableBushes.FootprintBySize | DestroyableBushes/ModData.cs:80-95 | medium and walnut bushes yield exactly [tile, tile+(1,0)]; large bushes yield exactly [tile, tile+(1,0), tile+(2,0)]; every other size yields exactly [tile], with no error |

## Left out

- JSON serialization (the `JsonProperty` and `JsonIgnore` attributes, lines 39-46) is done by an external library. The model keeps the stored fields but not the on-disk layout.
- The host's date type checks the day range, the season name and the year when a date is built (line 51). Its code is not part of this model. The model only covers the one failure certain from the code: with no stored season, no date can be built.
- `SDate.Now()` (line 73) reads the host's clock. It becomes the constructor parameter `now`.
- `Vector2` holds floating-point coordinates (line 26). The code only adds the whole numbers 1 and 2 to them, so the model uses integers.
- `Bush.mediumBush`, `Bush.walnutBush` and `Bush.largeBush` belong to the host game. They are mirrored as the constants 1, 4 and 2. The proofs use only the fact that they are distinct.
- GetCollisionTiles: the source produces its tiles lazily, with `yield return`. It reads `Size` only when the caller starts stepping through the tiles, and it reads `Tile` again before each tile it produces. `Tile` and `Size` both have public setters (lines 26 and 28). The model reads both once, when it is called, and returns a finite sequence. The two give the same tiles in the same order only if neither `Tile` nor `Size` changes between the call and the end of the enumeration. If the record changes during that time, the source gives the new size's tiles, or a mix of old and new anchors; the model does not capture this.
- The mod's event handlers add records to `DestroyedBushes` and remove them, using the host's list type. These handlers, and their respawn, town-bush and tilesheet-offset behaviour (described in the comments on lines 30 and 32-36), are not part of this model.
- SetDateDestroyed: the host's date type is a class, so the source's setter can be given `null`. It then throws a null-reference exception when it reads the date's day (line 55). The model's date is a value and cannot be null, so this failure is not modelled. The code shown never passes `null`: the constructor passes the current date, and serialization skips the property.

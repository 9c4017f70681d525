/** The mod's save data: the list of destroyed bushes waiting to be respawned,
    and for each one the information needed to put it back, together with the
    tiles its collision box would obstruct. */
module DestroyableBushes {

  /** C#'s `null` for reference and nullable value types. */
  datatype Option<T> = None | Some(value: T)

  /** A tile position. The host stores it as a pair of floats; only whole tile
      coordinates and the integer offsets 1 and 2 are ever used here. */
  datatype Vector2 = Vector2(X: int, Y: int)

  /** The host's in-game calendar date. */
  datatype SDate = SDate(Day: int, Season: string, Year: int)

  /* The host game's bush size classes. The values mirror the host's own
     constants; everything proved below depends only on their being distinct. */
  const MediumBush: int := 1
  const LargeBush: int := 2
  const WalnutBush: int := 4

  /** The number of tiles a bush of the given size class covers. */
  function FootprintWidth(size: int): (w: nat)
    ensures 1 <= w <= 3
  {
    if size == MediumBush || size == WalnutBush then 2
    else if size == LargeBush then 3
    else 1
  }

  /** The `width` tiles running rightward from `anchor`, in order. */
  function SpanRight(anchor: Vector2, width: nat): (tiles: seq<Vector2>)
    ensures |tiles| == width
    ensures forall i :: 0 <= i < width ==> tiles[i] == Vector2(anchor.X + i, anchor.Y)
    decreases width
  {
    if width == 0 then [] else [anchor] + SpanRight(Vector2(anchor.X + 1, anchor.Y), width - 1)
  }

  /** A set of serializable save data. */
  class ModData {
    /** The destroyed bushes that have not yet been respawned. */
    var DestroyedBushes: seq<DestroyedBush>

    constructor ()
      ensures DestroyedBushes == []
    {
      DestroyedBushes := [];
    }
  }

  /** The information needed to respawn a destroyed bush. */
  class DestroyedBush {
    var LocationName: Option<string>
    /** The bush's own anchor tile (not the player's or the tool's). */
    var Tile: Vector2
    var Size: int
    var TownBush: bool
    /** When `None`, the respawned bush keeps its own tilesheet offset. */
    var TilesheetOffset: Option<int>

    /* The destruction date, stored as its three components. */
    var day: int
    var season: Option<string>
    var year: int

    /** The parameterless constructor: every field keeps its default value. */
    constructor ()
      ensures LocationName == None && Tile == Vector2(0, 0) && Size == 0
      ensures !TownBush && TilesheetOffset == None
      ensures day == 0 && season == None && year == 0
    {
      LocationName := None;
      Tile := Vector2(0, 0);
      Size := 0;
      TownBush := false;
      TilesheetOffset := None;
      day, season, year := 0, None, 0;
    }

    /** The full constructor. `now` is the current in-game date, which the host
        reads from its own clock. */
    constructor Create(locationName: Option<string>, tile: Vector2, size: int,
                       townBush: bool := false, tilesheetOffset: Option<int> := None,
                       nameonly now: SDate)
      ensures LocationName == locationName && Tile == tile && Size == size
      ensures TownBush == townBush && TilesheetOffset == tilesheetOffset
      ensures DateDestroyed() == Some(now)
    {
      LocationName := locationName;
      Tile := tile;
      Size := size;
      TownBush := townBush;
      TilesheetOffset := tilesheetOffset;
      day, season, year := now.Day, Some(now.Season), now.Year;
    }

    /** Reading the destruction date rebuilds it from the three stored fields.
        The host's date type cannot be built without a season, so a record
        whose date was never written yields `None`. */
    function DateDestroyed(): (date: Option<SDate>)
      reads this`day, this`season, this`year
      ensures date.None? <==> season.None?
      ensures date.Some? ==> date.value.Day == day && Some(date.value.Season) == season && date.value.Year == year
    {
      match season
      case None => None
      case Some(s) => Some(SDate(day, s, year))
    }

    /** Writing the destruction date splits it into the three stored fields
        and changes nothing else. */
    method SetDateDestroyed(value: SDate)
      modifies this`day, this`season, this`year
      ensures day == value.Day && season == Some(value.Season) && year == value.Year
      ensures DateDestroyed() == Some(value)
      ensures old(DateDestroyed()) == Some(value) ==> day == old(day) && season == old(season) && year == old(year)
    {
      day := value.Day;
      season := Some(value.Season);
      year := value.Year;
    }

    /** The tiles obstructed by this bush's collision box: the anchor tile and
        the tiles to its right, one for a small (or unrecognised) bush, two for
        a medium or walnut bush, three for a large bush. */
    function GetCollisionTiles(): (tiles: seq<Vector2>)
      reads this`Tile, this`Size
      ensures 1 <= |tiles| <= 3 && tiles[0] == Tile
      ensures forall i :: 0 <= i < |tiles| ==> tiles[i] == Vector2(Tile.X + i, Tile.Y)
      ensures |tiles| == 2 <==> Size == MediumBush || Size == WalnutBush
      ensures |tiles| == 3 <==> Size == LargeBush
    {
      if Size == MediumBush || Size == WalnutBush then
        [Tile, Vector2(Tile.X + 1, Tile.Y)]
      else if Size == LargeBush then
        [Tile, Vector2(Tile.X + 1, Tile.Y), Vector2(Tile.X + 2, Tile.Y)]
      else
        [Tile]
    }
  }

  /** The collision tiles are exactly the footprint width's run of tiles
      rightward from the anchor. */
  lemma CollisionTilesAreSpan(b: DestroyedBush)
    ensures b.GetCollisionTiles() == SpanRight(b.Tile, FootprintWidth(b.Size))
  {
  }

  /** A tile is obstructed exactly when it lies on the anchor's row, no further
      left than the anchor and within the footprint width. */
  lemma CollisionTileMembership(b: DestroyedBush, p: Vector2)
    ensures p in b.GetCollisionTiles() <==>
            p.Y == b.Tile.Y && b.Tile.X <= p.X < b.Tile.X + FootprintWidth(b.Size)
  {
  }

  /** The footprint of each size class, tile by tile and in order. */
  lemma FootprintBySize(b: DestroyedBush)
    ensures b.Size == MediumBush || b.Size == WalnutBush ==>
              b.GetCollisionTiles() == [b.Tile, Vector2(b.Tile.X + 1, b.Tile.Y)]
    ensures b.Size == LargeBush ==>
              b.GetCollisionTiles() == [b.Tile, Vector2(b.Tile.X + 1, b.Tile.Y), Vector2(b.Tile.X + 2, b.Tile.Y)]
    ensures b.Size != MediumBush && b.Size != WalnutBush && b.Size != LargeBush ==>
              b.GetCollisionTiles() == [b.Tile]
  {
  }

  /** A new save data object starts with no destroyed bushes; a medium town
      bush recorded with the defaults has no tilesheet offset and covers its
      anchor tile and the one to its right. */
  method TownMediumBushScenario(now: SDate)
  {
    var data := new ModData();
    assert data.DestroyedBushes == [];
    var bush := new DestroyedBush.Create(Some("Town"), Vector2(10, 15), MediumBush, now := now);
    assert !bush.TownBush && bush.TilesheetOffset == None;
    assert bush.GetCollisionTiles() == [Vector2(10, 15), Vector2(11, 15)];
    assert bush.DateDestroyed() == Some(now);
    data.DestroyedBushes := data.DestroyedBushes + [bush];
    assert data.DestroyedBushes[0].LocationName == Some("Town");
  }

  /** A large bush at the origin covers the first three tiles of row zero;
      rewriting its date with the date it already holds changes nothing. */
  method LargeBushScenario(now: SDate)
  {
    var bush := new DestroyedBush.Create(Some("Forest"), Vector2(0, 0), LargeBush, true, Some(3), now := now);
    assert bush.TownBush && bush.TilesheetOffset == Some(3);
    assert bush.GetCollisionTiles() == [Vector2(0, 0), Vector2(1, 0), Vector2(2, 0)];
    var date := bush.DateDestroyed();
    bush.SetDateDestroyed(date.value);
    assert bush.DateDestroyed() == Some(now);
    assert bush.Tile == Vector2(0, 0) && bush.Size == LargeBush;
  }
}

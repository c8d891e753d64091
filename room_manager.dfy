/**
 * The room the player is in and the mask that each room equips.
 */
module RoomManager {
  /** The masks a room can equip (the enum itself is declared outside the modelled files). */
  datatype MaskType = NoMask | FearMask | HateMask | SorrowMask | GuiltMask

  datatype RoomType = NoRoom | Fear | Hate | Sorrow | Guilt | Bedroom

  /** The four rooms that belong to an emotion. */
  predicate IsEmotionRoom(room: RoomType) { room in {Fear, Hate, Sorrow, Guilt} }

  /**
   * `GetMaskForRoom`: every emotion room has the mask of the same emotion;
   * the bedroom and the empty room have none. Distinct emotion rooms get
   * distinct masks (lemma `MaskForRoomInjective`).
   */
  function GetMaskForRoom(room: RoomType): (m: MaskType)
    ensures m == NoMask <==> !IsEmotionRoom(room)
    ensures room == Fear <==> m == FearMask
    ensures room == Hate <==> m == HateMask
    ensures room == Sorrow <==> m == SorrowMask
    ensures room == Guilt <==> m == GuiltMask
  {
    match room
    case Fear => FearMask
    case Hate => HateMask
    case Sorrow => SorrowMask
    case Guilt => GuiltMask
    case Bedroom => NoMask
    case NoRoom => NoMask
  }

  lemma MaskForRoomInjective(a: RoomType, b: RoomType)
    requires IsEmotionRoom(a) && IsEmotionRoom(b)
    requires GetMaskForRoom(a) == GetMaskForRoom(b)
    ensures a == b
  {
  }

  /** No two neighbouring entries of a log are equal. */
  predicate NoStutter<T(==)>(log: seq<T>)
  {
    forall i :: 0 < i < |log| ==> log[i - 1] != log[i]
  }

  class RoomManager {
    var currentRoom: RoomType
    /** Arguments of every `OnRoomChanged` notification, oldest first. */
    var roomChanges: seq<RoomType>
    /** Arguments of every `OnMaskEquipped` notification, oldest first. */
    var masksEquipped: seq<MaskType>

    /** The change log never repeats a room back to back, and ends in the current room. */
    predicate Valid()
      reads this
    {
      && NoStutter([NoRoom] + roomChanges)
      && (if roomChanges == [] then currentRoom == NoRoom else roomChanges[|roomChanges| - 1] == currentRoom)
    }

    constructor ()
      ensures Valid()
      ensures currentRoom == NoRoom && roomChanges == [] && masksEquipped == []
    {
      currentRoom := NoRoom;
      roomChanges := [];
      masksEquipped := [];
    }

    /**
     * `EnterRoom`. Entering the current room does nothing. Otherwise the room
     * changes, the room's mask is equipped when a player exists, and the
     * room change is announced once.
     */
    method EnterRoom(room: RoomType, playerFound: bool)
      requires Valid()
      modifies this
      ensures Valid()
      ensures room == old(currentRoom) ==> currentRoom == old(currentRoom) && roomChanges == old(roomChanges) && masksEquipped == old(masksEquipped)
      ensures room != old(currentRoom) ==> currentRoom == room && roomChanges == old(roomChanges) + [room]
      ensures room != old(currentRoom) ==> masksEquipped == old(masksEquipped) + (if playerFound then [GetMaskForRoom(room)] else [])
    {
      if room == currentRoom {
        return;
      }
      currentRoom := room;
      var mask := GetMaskForRoom(room);
      EquipMask(mask, playerFound);
      ghost var before := [NoRoom] + roomChanges;
      assert before[|before| - 1] != room;
      roomChanges := roomChanges + [room];
      assert [NoRoom] + roomChanges == before + [room];
    }

    /** `EquipMask`: hands the mask to the player, announced only when a player was found. */
    method EquipMask(mask: MaskType, playerFound: bool)
      modifies this`masksEquipped
      ensures masksEquipped == old(masksEquipped) + (if playerFound then [mask] else [])
    {
      if playerFound {
        masksEquipped := masksEquipped + [mask];
      }
    }
  }
}

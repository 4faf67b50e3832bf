/** The three user roles of UserType.java, their decoding from the
    `persons.user_type_id` column, and the role ranking used to gate
    requests. */
module UserTypes {

  /** Declared in this order, so NORMAL < ADMINISTRATOR < SUPERUSER. */
  datatype UserType = Normal | Administrator | Superuser

  /** The enum constant's position in its declaration (Java's `ordinal()`). */
  function Ordinal(t: UserType): nat
  {
    match t
    case Normal => 0
    case Administrator => 1
    case Superuser => 2
  }

  /** The role stored under a numeric type id: 4 is a superuser, 3 an
      administrator, every other id (including the -1 of a missing row) a
      normal user. */
  function GetFromId(userTypeId: int): (t: UserType)
    ensures t == Superuser <==> userTypeId == 4
    ensures t == Administrator <==> userTypeId == 3
    ensures t == Normal <==> userTypeId != 3 && userTypeId != 4
  {
    if userTypeId == 4 then Superuser
    else if userTypeId == 3 then Administrator
    else Normal
  }

  /** `t2.compareTo(t1) >= 0`: the rank of `t2` is at least that of `t1`. */
  function GeRank(t1: UserType, t2: UserType): (b: bool)
    ensures b <==> t1 == Normal || t1 == t2 || (t1 == Administrator && t2 == Superuser)
  {
    Ordinal(t2) - Ordinal(t1) >= 0
  }

  /** The ranking is a total order on roles. */
  lemma GeRankTotalOrder(t1: UserType, t2: UserType, t3: UserType)
    ensures GeRank(t1, t1)
    ensures GeRank(t1, t2) && GeRank(t2, t3) ==> GeRank(t1, t3)
    ensures GeRank(t1, t2) && GeRank(t2, t1) ==> t1 == t2
    ensures GeRank(t1, t2) || GeRank(t2, t1)
  {
  }

  /** NORMAL is the bottom rank and SUPERUSER the top one: every role is at
      least NORMAL, and only SUPERUSER is at least SUPERUSER. */
  lemma GeRankBounds(t: UserType)
    ensures GeRank(Normal, t)
    ensures GeRank(t, Superuser)
    ensures GeRank(Superuser, t) <==> t == Superuser
  {
  }
}

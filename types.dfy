/** The records shared by the MaxDiff and CBC formulas (types.ts). Every count the
    user interface hands over is the result of `parseInt`, so it is an integer,
    but nothing stops it from being zero or negative: the fields are `int`. */
module Types {

  /** One best-worst (MaxDiff) survey design. */
  datatype MaxDiffState = MaxDiffState(
    totalItems: int,
    itemsPerScreen: int,
    nScreens: int,
    sampleSize: int)

  /** One conjoint attribute and the number of levels it takes. */
  datatype Attribute = Attribute(id: string, name: string, levels: int)

  /** The construction heuristic of a CBC design; only a label for its efficiency factor. */
  datatype DesignMethod = Complete | Shortcut | Random | Balanced

  /** One choice-based conjoint (CBC) survey design. */
  datatype ConjointState = ConjointState(
    attributes: seq<Attribute>,
    nTasks: int,
    conceptsPerTask: int,
    sampleSize: int,
    percentNone: int,
    designMethod: DesignMethod)

  /** The four-tier rating, worst first. */
  datatype DesignStatus = Critical | Poor | Acceptable | Excellent
  {
    /** The position of the tier in the order worst to best. */
    function Rank(): nat
    {
      match this
      case Critical => 0
      case Poor => 1
      case Acceptable => 2
      case Excellent => 3
    }
  }

  /** What both validators return: a tier, a message for the user and a 0-100 score. */
  datatype ValidationResult = ValidationResult(status: DesignStatus, message: string, score: int)
}

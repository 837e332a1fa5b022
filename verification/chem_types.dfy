/** The records the game passes around: molecules, equations, player statistics and preferences. */
module ChemTypes {

  /** An entry of the `any[]` fields (`atoms`, `bonds`, `achievements`), which the core only stores and copies. */
  type Opaque(==)

  datatype Option<T> = None | Some(value: T)

  datatype MoleculeState = Solid | Liquid | Gas | Aqueous

  datatype Molecule = Molecule(
    id: string,
    atoms: seq<Opaque>,
    bonds: seq<Opaque>,
    coefficient: int,
    charge: int,
    formula: string,
    name: Option<string>,
    state: Option<MoleculeState>)

  datatype ReactionType =
    Synthesis | Decomposition | Combustion | SingleReplacement | DoubleReplacement | AcidBase | Redox

  datatype Difficulty = Beginner | Intermediate | Advanced | Expert

  datatype ChemicalEquation = ChemicalEquation(
    id: string,
    reactants: seq<Molecule>,
    products: seq<Molecule>,
    isBalanced: bool,
    kind: ReactionType,
    difficulty: Difficulty,
    hints: Option<seq<string>>,
    explanation: Option<string>)

  datatype PlayerStats = PlayerStats(
    level: int,
    experience: int,
    protonPoints: int,
    electronCredits: int,
    neutronNuggets: int,
    equationsBalanced: int,
    perfectBalances: int,
    totalPlayTime: int,
    currentStreak: int,
    bestStreak: int,
    achievements: seq<Opaque>)

  datatype GameDifficulty = Easy | Normal | Hard

  datatype Animations = Full | Reduced | NoAnimations

  datatype UserPreferences = UserPreferences(
    soundEnabled: bool,
    musicEnabled: bool,
    soundVolume: real,
    musicVolume: real,
    theme: string,
    difficulty: GameDifficulty,
    hintsEnabled: bool,
    animations: Animations,
    language: string)

  datatype GameSession = GameSession(
    id: string,
    startTime: int,
    endTime: Option<int>,
    equationsAttempted: seq<string>,
    score: int)

  datatype EquationAttempt = EquationAttempt(
    equationId: string,
    timestamp: int,
    isCorrect: bool,
    timeSpent: int,
    hintsUsed: int)

  /** `{ formula: string; coefficient: number }`: what the balance checkers read from a molecule. */
  datatype Weighted = Weighted(formula: string, coefficient: int)

  /** A molecule seen through the `{ formula, coefficient }` shape. */
  function AsWeighted(ms: seq<Molecule>): (r: seq<Weighted>)
    ensures |r| == |ms|
    ensures forall i | 0 <= i < |r| :: r[i].formula == ms[i].formula && r[i].coefficient == ms[i].coefficient
  {
    if ms == [] then [] else [Weighted(ms[0].formula, ms[0].coefficient)] + AsWeighted(ms[1..])
  }
}

/**
 * The shared customisation record of client/src/store/index.ts. The program
 * keeps one mutable record that every component reads and that handlers
 * assign field by field; here it is the class `State`, and `Record` is the
 * value of its fields at one moment.
 */
module Store {

  /** The boolean fields of the record (the `BooleanStateKeys` type). */
  datatype BooleanKey = Intro | IsLogoTexture | IsFullTexture | IsBackLogo | IsRightShoulderLogo | IsLeftShoulderLogo
  {
    function Name(): string {
      match this
      case Intro => "intro"
      case IsLogoTexture => "isLogoTexture"
      case IsFullTexture => "isFullTexture"
      case IsBackLogo => "isBackLogo"
      case IsRightShoulderLogo => "isRightShoulderLogo"
      case IsLeftShoulderLogo => "isLeftShoulderLogo"
    }
  }

  /** The string fields of the record (the `StringStateKeys` type). */
  datatype StringKey = Color | LogoDecal | FullDecal | Mode
  {
    function Name(): string {
      match this
      case Color => "color"
      case LogoDecal => "logoDecal"
      case FullDecal => "fullDecal"
      case Mode => "mode"
    }
  }

  datatype Record = Record(
    intro: bool,
    color: string,
    isLogoTexture: bool,
    isFullTexture: bool,
    isLeftShoulderLogo: bool,
    isRightShoulderLogo: bool,
    isBackLogo: bool,
    logoDecal: string,
    fullDecal: string,
    mode: string)
  {
    /** `state[k]` for a boolean key. */
    function Flag(k: BooleanKey): bool {
      match k
      case Intro => intro
      case IsLogoTexture => isLogoTexture
      case IsFullTexture => isFullTexture
      case IsBackLogo => isBackLogo
      case IsRightShoulderLogo => isRightShoulderLogo
      case IsLeftShoulderLogo => isLeftShoulderLogo
    }

    /** `state[k]` for a string key. */
    function Text(k: StringKey): string {
      match k
      case Color => color
      case LogoDecal => logoDecal
      case FullDecal => fullDecal
      case Mode => mode
    }

    /** The record after `state[k] = v`: field `k` reads `v`, every other field is as before. */
    function WithText(k: StringKey, v: string): (r: Record)
      ensures r.Text(k) == v
      ensures forall j :: j != k ==> r.Text(j) == Text(j)
      ensures forall b :: r.Flag(b) == Flag(b)
    {
      match k
      case Color => this.(color := v)
      case LogoDecal => this.(logoDecal := v)
      case FullDecal => this.(fullDecal := v)
      case Mode => this.(mode := v)
    }
  }

  const DefaultDecal: string := "./threejs.png"

  /** The record as the program creates it. */
  const Initial: Record := Record(
    intro := true,
    color := "#EFBD4E",
    isLogoTexture := true,
    isFullTexture := false,
    isLeftShoulderLogo := false,
    isRightShoulderLogo := false,
    isBackLogo := false,
    logoDecal := DefaultDecal,
    fullDecal := DefaultDecal,
    mode := "prod")

  /** Of the five placement flags, only the chest flag is on initially. */
  lemma InitialPlacement()
    ensures Initial.intro
    ensures forall b :: b != Intro ==> (Initial.Flag(b) <==> b == IsLogoTexture)
    ensures Initial.Text(LogoDecal) == Initial.Text(FullDecal) == "./threejs.png"
    ensures Initial.Text(Color) == "#EFBD4E" && Initial.Text(Mode) == "prod"
  {
  }

  class State {
    var intro: bool
    var color: string
    var isLogoTexture: bool
    var isFullTexture: bool
    var isLeftShoulderLogo: bool
    var isRightShoulderLogo: bool
    var isBackLogo: bool
    var logoDecal: string
    var fullDecal: string
    var mode: string

    /** The current value of every field. */
    function Snapshot(): Record
      reads this
    {
      Record(intro, color, isLogoTexture, isFullTexture, isLeftShoulderLogo,
             isRightShoulderLogo, isBackLogo, logoDecal, fullDecal, mode)
    }

    constructor ()
      ensures Snapshot() == Initial
    {
      intro := true;
      color := "#EFBD4E";
      isLogoTexture := true;
      isFullTexture := false;
      isLeftShoulderLogo := false;
      isRightShoulderLogo := false;
      isBackLogo := false;
      logoDecal := DefaultDecal;
      fullDecal := DefaultDecal;
      mode := "prod";
    }

    /** `state[k] = v` for a string key chosen at run time. */
    method SetText(k: StringKey, v: string)
      modifies this
      ensures Snapshot() == old(Snapshot()).WithText(k, v)
    {
      match k
      case Color => color := v;
      case LogoDecal => logoDecal := v;
      case FullDecal => fullDecal := v;
      case Mode => mode := v;
    }
  }
}

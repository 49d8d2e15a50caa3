/**
 * The three-valued stress scale shared by every copy of the classifier. The
 * dashboards spell it "Low" / "Moderate" / "High", the offline simulator
 * "low" / "medium" / "high".
 */
module Stress {

  datatype Level = Low | Moderate | High

  /** The order Low < Moderate < High. */
  function Rank(l: Level): nat
  {
    match l
    case Low => 0
    case Moderate => 1
    case High => 2
  }

  /** The dashboard spelling. */
  function TitleName(l: Level): string
  {
    match l
    case Low => "Low"
    case Moderate => "Moderate"
    case High => "High"
  }

  /** The spelling of the offline simulator. */
  function LowerName(l: Level): string
  {
    match l
    case Low => "low"
    case Moderate => "medium"
    case High => "high"
  }
}

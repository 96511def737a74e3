/**
 * The board data the IO handler moves around. The fields of Rust's `Board`
 * are not visible to the handler; it only relies on `Board::default()`.
 */
module Kanban {

  /** Placeholder for a card; its content is never inspected here. */
  datatype Card = Card(content: string)

  /**
   * Placeholder for a board: the handler never reads a board's fields, so
   * `name` and `cards` only make boards distinguishable values.
   */
  datatype Board = Board(name: string, cards: seq<Card>)

  /** `Board::default()`: a board with no cards. */
  const DefaultBoard: Board := Board("", [])
}

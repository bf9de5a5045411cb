/** Image-plane points (cv::Point2f), with real coordinates. */
module Geometry {
  datatype Point2 = Point2(x: real, y: real)

  const ORIGIN := Point2(0.0, 0.0)

  function Add(p: Point2, q: Point2): Point2 {
    Point2(p.x + q.x, p.y + q.y)
  }

  function Sub(p: Point2, q: Point2): Point2 {
    Point2(p.x - q.x, p.y - q.y)
  }

  function Div(p: Point2, k: real): Point2
    requires k != 0.0
  {
    Point2(p.x / k, p.y / k)
  }

  /** The squared Euclidean length, which orders points as cv::norm does. */
  function SquaredNorm(p: Point2): real {
    p.x * p.x + p.y * p.y
  }
}

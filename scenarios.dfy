/** Event sequences driven through the two components, as a user of the
    tool would produce them; each assertion follows from the handlers'
    contracts alone. */
module Scenarios {
  import opened Wrappers
  import opened Seqs
  import opened Annotations
  import opened AnnotationCanvas
  import App

  /** A drag from (100, 100) to (250, 180) over an 800 × 600 image commits
      one manual 150 × 80 box with the first tag and does not select it. */
  method DrawOneBox() {
    var app := new App.App();
    var canvas := new Canvas(app, TAGS);
    canvas.HandleMouseDown(false, 100.0, 100.0);
    canvas.HandleMouseMove(250.0, 180.0);
    canvas.HandleMouseUp(Some(ImageSize(800, 600)), "manual-1");
    assert app.annotations == [Annotation(100.0, 100.0, 150.0, 80.0, Button, "manual-1", Manual)];
    assert app.selectedId == None;
    assert !canvas.drawing && canvas.newRect == None;
  }

  /** Drawing up and to the left commits the same box as drawing down and
      to the right; a band exactly 10 wide is discarded. */
  method DrawBackwardsAndAtThreshold() {
    var app := new App.App();
    var canvas := new Canvas(app, TAGS);
    canvas.HandleMouseDown(false, 250.0, 180.0);
    canvas.HandleMouseMove(100.0, 100.0);
    canvas.HandleMouseUp(Some(ImageSize(800, 600)), "manual-1");
    assert app.annotations == [Annotation(100.0, 100.0, 150.0, 80.0, Button, "manual-1", Manual)];
    canvas.HandleMouseDown(false, 10.0, 10.0);
    canvas.HandleMouseMove(20.0, 40.0);
    canvas.HandleMouseUp(Some(ImageSize(800, 600)), "manual-2");
    assert |app.annotations| == 1;
  }

  /** A band that runs past the image edge is pulled back inside it on
      commit; while it is drawn it is not clamped. */
  method DrawPastTheEdge() {
    var app := new App.App();
    var canvas := new Canvas(app, TAGS);
    canvas.HandleMouseDown(false, 700.0, 500.0);
    canvas.HandleMouseMove(900.0, 650.0);
    assert canvas.newRect == Some(Rect(700.0, 500.0, 200.0, 150.0));
    canvas.HandleMouseUp(Some(ImageSize(800, 600)), "manual-1");
    assert app.annotations == [Annotation(600.0, 450.0, 200.0, 150.0, Button, "manual-1", Manual)];
  }

  /** A 5 × 3 gesture creates nothing. */
  method TinyGesture() {
    var app := new App.App();
    var canvas := new Canvas(app, TAGS);
    canvas.HandleMouseDown(false, 10.0, 10.0);
    canvas.HandleMouseMove(15.0, 13.0);
    canvas.HandleMouseUp(Some(ImageSize(800, 600)), "manual-1");
    assert app.annotations == [];
  }

  /** Selecting a box, retagging it and deleting it with the Delete key. */
  method SelectRetagDelete() {
    var app := new App.App();
    var canvas := new Canvas(app, TAGS);
    canvas.HandleMouseDown(false, 100.0, 100.0);
    canvas.HandleMouseMove(250.0, 180.0);
    canvas.HandleMouseUp(None, "manual-1");
    canvas.HandleRectClick("manual-1");
    app.OnTagChange(Radio);
    assert app.annotations == [Annotation(100.0, 100.0, 150.0, 80.0, Radio, "manual-1", Manual)];
    canvas.HandleKeyDown("Delete");
    assert app.annotations == [] && app.selectedId == None;
  }

  /** Two manual and three predicted records; an empty answer leaves the
      two manual ones, a failed request changes nothing. */
  method EmptyPrediction() {
    var app := new App.App();
    app.HandleImageUpload(Some(App.ImageFile("page.png", "data:image/png;base64,AAAA")));
    var m1 := Annotation(0.0, 0.0, 20.0, 20.0, Button, "m1", Manual);
    var m2 := Annotation(30.0, 0.0, 20.0, 20.0, Input, "m2", Manual);
    var l1 := Annotation(0.0, 30.0, 20.0, 20.0, Radio, "l1", Llm);
    var l2 := Annotation(30.0, 30.0, 20.0, 20.0, Dropdown, "l2", Llm);
    var l3 := Annotation(60.0, 30.0, 20.0, 20.0, Button, "l3", Llm);
    app.annotations := [m1, m2, l1, l2, l3];
    app.HandlePredict(App.NetworkError, []);
    assert app.annotations == [m1, m2, l1, l2, l3];
    app.HandlePredict(App.HttpError("bad gateway"), []);
    assert app.annotations == [m1, m2, l1, l2, l3];
    assert [m1, m2, l1, l2, l3] == [m1, m2] + [l1, l2, l3];
    FilterConcat([m1, m2], [l1, l2, l3], App.NotLlm);
    FilterKeepsAll([m1, m2], App.NotLlm);
    FilterDropsAll([l1, l2, l3], App.NotLlm);
    app.HandlePredict(App.Ok(None), []);
    assert app.annotations == [m1, m2];
  }
}

/** The transformation pipeline: from object scale, rotation and world
    position, a camera pose and a perspective frustum, one matrix that takes
    an object-space point to clip space. */
module TransformPipeline {
  import opened Vectors
  import opened Matrices

  /** The perspective frustum (PersProjInfo). */
  datatype PersProjInfo = PersProjInfo(fov: real, width: real, height: real, zNear: real, zFar: real)

  /** The camera pose the pipeline is given (Pos, Target, Up). */
  datatype CameraPose = CameraPose(pos: Vec3, target: Vec3, up: Vec3)

  /** Every parameter the transformation is computed from. */
  datatype Params = Params(scale: Vec3, worldPos: Vec3, rotateInfo: Vec3, persProj: PersProjInfo, camera: CameraPose)

  /** The matrix initialisers of the matrix library (InitScaleTransform,
      InitRotateTransform, InitTranslationTransform, InitCameraTransform,
      InitPersProjTransform).  Their definitions are not part of this model,
      so they are parameters. */
  datatype MatrixInits = MatrixInits(
    scale: (real, real, real) -> Mat4,
    rotate: (real, real, real) -> Mat4,
    translation: (real, real, real) -> Mat4,
    camera: (Vec3, Vec3) -> Mat4,
    persProj: (real, real, real, real, real) -> Mat4)

  /** The six matrices the pipeline multiplies. */
  datatype Stages = Stages(scale: Mat4, rotate: Mat4, translation: Mat4,
                           cameraTranslation: Mat4, cameraRotate: Mat4, persProj: Mat4)

  /** Each stage built from its own parameters. */
  function StagesOf(inits: MatrixInits, p: Params): Stages {
    Stages(inits.scale(p.scale.x, p.scale.y, p.scale.z),
           inits.rotate(p.rotateInfo.x, p.rotateInfo.y, p.rotateInfo.z),
           inits.translation(p.worldPos.x, p.worldPos.y, p.worldPos.z),
           inits.translation(-p.camera.pos.x, -p.camera.pos.y, -p.camera.pos.z),
           inits.camera(p.camera.target, p.camera.up),
           inits.persProj(p.persProj.fov, p.persProj.width, p.persProj.height,
                          p.persProj.zNear, p.persProj.zFar))
  }

  /** PersProj * CameraRotate * CameraTranslation * Translation * Rotate * Scale,
      grouped from the left as the product operator groups it. */
  function Compose(st: Stages): Mat4 {
    Mul(Mul(Mul(Mul(Mul(st.persProj, st.cameraRotate), st.cameraTranslation),
                st.translation), st.rotate), st.scale)
  }

  function Transformation(inits: MatrixInits, p: Params): Mat4 {
    Compose(StagesOf(inits, p))
  }

  /** The composed matrix is the same product grouped from the right. */
  lemma ComposeRightNested(st: Stages)
    ensures Compose(st) == Mul(st.persProj, Mul(st.cameraRotate, Mul(st.cameraTranslation,
                            Mul(st.translation, Mul(st.rotate, st.scale)))))
  {
    var P, CR, CT, T, R, S := st.persProj, st.cameraRotate, st.cameraTranslation,
                              st.translation, st.rotate, st.scale;
    calc {
      Compose(st);
      Mul(Mul(Mul(Mul(Mul(P, CR), CT), T), R), S);
      { MulAssociative(Mul(Mul(Mul(P, CR), CT), T), R, S); }
      Mul(Mul(Mul(Mul(P, CR), CT), T), Mul(R, S));
      { MulAssociative(Mul(Mul(P, CR), CT), T, Mul(R, S)); }
      Mul(Mul(Mul(P, CR), CT), Mul(T, Mul(R, S)));
      { MulAssociative(Mul(P, CR), CT, Mul(T, Mul(R, S))); }
      Mul(Mul(P, CR), Mul(CT, Mul(T, Mul(R, S))));
      { MulAssociative(P, CR, Mul(CT, Mul(T, Mul(R, S)))); }
      Mul(P, Mul(CR, Mul(CT, Mul(T, Mul(R, S)))));
    }
  }

  /** Applying the composed matrix to a vector scales it first, then rotates,
      translates, moves by the camera translation, rotates into camera space,
      and projects last. */
  lemma ComposeAppliesInOrder(st: Stages, v: Vec4)
    ensures Apply(Compose(st), v)
         == Apply(st.persProj, Apply(st.cameraRotate, Apply(st.cameraTranslation,
              Apply(st.translation, Apply(st.rotate, Apply(st.scale, v))))))
  {
    var P, CR, CT, T, R, S := st.persProj, st.cameraRotate, st.cameraTranslation,
                              st.translation, st.rotate, st.scale;
    calc {
      Apply(Compose(st), v);
      { ComposeRightNested(st); }
      Apply(Mul(P, Mul(CR, Mul(CT, Mul(T, Mul(R, S))))), v);
      { ApplyMul(P, Mul(CR, Mul(CT, Mul(T, Mul(R, S)))), v); }
      Apply(P, Apply(Mul(CR, Mul(CT, Mul(T, Mul(R, S)))), v));
      { ApplyMul(CR, Mul(CT, Mul(T, Mul(R, S))), v); }
      Apply(P, Apply(CR, Apply(Mul(CT, Mul(T, Mul(R, S))), v)));
      { ApplyMul(CT, Mul(T, Mul(R, S)), v); }
      Apply(P, Apply(CR, Apply(CT, Apply(Mul(T, Mul(R, S)), v))));
      { ApplyMul(T, Mul(R, S), v); }
      Apply(P, Apply(CR, Apply(CT, Apply(T, Apply(Mul(R, S), v)))));
      { ApplyMul(R, S, v); }
      Apply(P, Apply(CR, Apply(CT, Apply(T, Apply(R, Apply(S, v))))));
    }
  }

  /** The pipeline's matrix acting on a vector is the six initialised stages
      applied one after another, object scale first and projection last. */
  lemma TransformationAppliesInOrder(inits: MatrixInits, p: Params, v: Vec4)
    ensures Apply(Transformation(inits, p), v)
         == Apply(inits.persProj(p.persProj.fov, p.persProj.width, p.persProj.height,
                                 p.persProj.zNear, p.persProj.zFar),
            Apply(inits.camera(p.camera.target, p.camera.up),
            Apply(inits.translation(-p.camera.pos.x, -p.camera.pos.y, -p.camera.pos.z),
            Apply(inits.translation(p.worldPos.x, p.worldPos.y, p.worldPos.z),
            Apply(inits.rotate(p.rotateInfo.x, p.rotateInfo.y, p.rotateInfo.z),
            Apply(inits.scale(p.scale.x, p.scale.y, p.scale.z), v))))))
  {
    ComposeAppliesInOrder(StagesOf(inits, p), v);
  }

  /** The conventional translation matrix: identity with (tx, ty, tz) in the
      last column. */
  function TranslationMatrix(tx: real, ty: real, tz: real): Mat4 {
    Mat4(Vec4(1.0, 0.0, 0.0, tx), Vec4(0.0, 1.0, 0.0, ty),
         Vec4(0.0, 0.0, 1.0, tz), Vec4(0.0, 0.0, 0.0, 1.0))
  }

  /** A point in homogeneous coordinates. */
  function Point(p: Vec3): Vec4 {
    Vec4(p.x, p.y, p.z, 1.0)
  }

  ghost predicate TranslationIsConventional(inits: MatrixInits) {
    forall tx, ty, tz :: inits.translation(tx, ty, tz) == TranslationMatrix(tx, ty, tz)
  }

  /** With the conventional translation matrix, the camera-translation stage
      moves every world point q to q - Pos: the world moves opposite to the
      camera, and the camera itself lands on the origin. */
  lemma CameraTranslationSubtractsPosition(inits: MatrixInits, p: Params, q: Vec3)
    requires TranslationIsConventional(inits)
    ensures Apply(StagesOf(inits, p).cameraTranslation, Point(q)) == Point(Sub(q, p.camera.pos))
    ensures Apply(StagesOf(inits, p).cameraTranslation, Point(p.camera.pos)) == Point(Vec3(0.0, 0.0, 0.0))
  {
    var c := p.camera.pos;
    assert StagesOf(inits, p).cameraTranslation == TranslationMatrix(-c.x, -c.y, -c.z);
  }

  /** The camera's position reaches the result only through the camera
      translation: the other five stages ignore it. */
  lemma OnlyCameraTranslationSeesPosition(inits: MatrixInits, p: Params, pos: Vec3)
    ensures var st, st' := StagesOf(inits, p), StagesOf(inits, p.(camera := p.camera.(pos := pos)));
      st' == st.(cameraTranslation := st'.cameraTranslation)
  {
  }

  /** The pipeline object: its parameters and the cached result. */
  class Pipeline {
    const inits: MatrixInits
    var scale: Vec3
    var worldPos: Vec3
    var rotateInfo: Vec3
    var persProj: PersProjInfo
    var camera: CameraPose
    var transformation: Mat4

    function CurrentParams(): Params
      reads this
    {
      Params(scale, worldPos, rotateInfo, persProj, camera)
    }

    constructor (inits: MatrixInits, p: Params)
      ensures this.inits == inits && CurrentParams() == p
    {
      this.inits := inits;
      scale, worldPos, rotateInfo, persProj, camera := p.scale, p.worldPos, p.rotateInfo, p.persProj, p.camera;
      var zero := Vec4(0.0, 0.0, 0.0, 0.0);
      transformation := Mat4(zero, zero, zero, zero);
    }

    /** Builds the six stages, stores their product in `transformation` and
        returns it. */
    method GetTrans() returns (t: Mat4)
      modifies this`transformation
      ensures transformation == Transformation(inits, CurrentParams())
      ensures t == transformation
    {
      var scaleTrans := inits.scale(scale.x, scale.y, scale.z);
      var rotateTrans := inits.rotate(rotateInfo.x, rotateInfo.y, rotateInfo.z);
      var translationTrans := inits.translation(worldPos.x, worldPos.y, worldPos.z);
      var cameraTranslationTrans := inits.translation(-camera.pos.x, -camera.pos.y, -camera.pos.z);
      var cameraRotateTrans := inits.camera(camera.target, camera.up);
      var persProjTrans := inits.persProj(persProj.fov, persProj.width, persProj.height,
                                          persProj.zNear, persProj.zFar);
      transformation := Mul(Mul(Mul(Mul(Mul(persProjTrans, cameraRotateTrans), cameraTranslationTrans),
                                    translationTrans), rotateTrans), scaleTrans);
      t := transformation;
    }
  }

  /** Asking twice without changing the parameters gives the same matrix. */
  method GetTransTwice(p: Pipeline) returns (a: Mat4, b: Mat4)
    modifies p`transformation
    ensures a == b == Transformation(p.inits, p.CurrentParams())
  {
    a := p.GetTrans();
    b := p.GetTrans();
  }
}
